// The authorization rule chain: the basic node (application existence, status, expiry) hands on
// to the permission node (IP whitelist, endpoint access), whose verdict is final.
module AuthorizationChains {
  import opened Wrappers
  import opened Domain
  import opened ReceptionAppAccess

  /** An authorization request: the two ids, each of which may be null, and the client IP. */
  datatype AuthorizationRequest = AuthorizationRequest(appId: Option<string>, endpointId: Option<string>, clientIp: string)

  /**
   * The basic node's guards, in order: both ids present, the application stored, ACTIVE, not
   * expired at `now`. The application when the node hands on, None when it answers false.
   */
  function BasicCheck(req: AuthorizationRequest, findByAppId: string -> Option<AppState>, now: Instant): (r: Option<AppState>)
    ensures r.Some? <==> && req.appId.Some? && req.endpointId.Some? && findByAppId(req.appId.value).Some?
                         && findByAppId(req.appId.value).value.status == ACTIVE
                         && !IsExpired(findByAppId(req.appId.value).value, now)
    ensures r.Some? ==> r == findByAppId(req.appId.value)
  {
    if req.appId.None? || req.endpointId.None? then None
    else match findByAppId(req.appId.value)
      case None => None
      case Some(app) =>
        if app.status != ACTIVE then None
        else if IsExpired(app, now) then None
        else Some(app)
  }

  /** The permission node: an empty client IP skips the whitelist; then the endpoint must be allowed. */
  function PermissionCheck(req: AuthorizationRequest, app: AppState): bool
  {
    if req.clientIp != "" && !IsIpWhitelisted(app, req.clientIp) then false
    else app.allowedEndpoints == {} || (req.endpointId.Some? && req.endpointId.value in app.allowedEndpoints)
  }

  /** basic → permission: the chain's verdict. */
  function Authorize(req: AuthorizationRequest, findByAppId: string -> Option<AppState>, now: Instant): bool
  {
    match BasicCheck(req, findByAppId, now)
    case None => false
    case Some(app) => PermissionCheck(req, app)
  }

  /**
   * The chain authorizes exactly an ACTIVE, unexpired, stored application whose whitelist admits
   * the client IP (or the IP is empty) and whose endpoint list admits the endpoint.
   */
  lemma AuthorizeMeaning(req: AuthorizationRequest, findByAppId: string -> Option<AppState>, now: Instant)
    ensures Authorize(req, findByAppId, now) <==>
      && req.appId.Some? && req.endpointId.Some? && findByAppId(req.appId.value).Some?
      && var app := findByAppId(req.appId.value).value;
         && app.status == ACTIVE && !IsExpired(app, now)
         && (req.clientIp == "" || IsIpWhitelisted(app, req.clientIp))
         && IsEndpointAllowed(app, req.endpointId.value)
  {
  }

  /** A missing id, an unknown, non-ACTIVE or expired application is refused whatever its IP and endpoint. */
  lemma BasicRefusalIsFinal(req: AuthorizationRequest, findByAppId: string -> Option<AppState>, now: Instant,
                            ip: string, endpointId: string)
    requires BasicCheck(req, findByAppId, now).None?
    ensures !Authorize(req.(clientIp := ip), findByAppId, now)
    ensures req.endpointId.Some? ==> !Authorize(req.(endpointId := Some(endpointId)), findByAppId, now)
  {
    assert BasicCheck(req.(clientIp := ip), findByAppId, now).None?;
  }

  /** With an empty client IP the whitelist plays no part: only the basic guards and the endpoint list decide. */
  lemma EmptyIpSkipsWhitelist(req: AuthorizationRequest, findByAppId: string -> Option<AppState>, now: Instant)
    requires req.clientIp == ""
    ensures BasicCheck(req, findByAppId, now).Some? ==>
              (Authorize(req, findByAppId, now) <==> IsEndpointAllowed(BasicCheck(req, findByAppId, now).value, req.endpointId.value))
    ensures forall app: AppState, w: set<string> :: PermissionCheck(req, app.(ipWhitelist := w)) == PermissionCheck(req, app)
  {
  }

  /** The context the two nodes share: the application the basic node found. */
  class AuthorizationContext {
    var appAccess: Option<AppState>

    constructor ()
      ensures appAccess.None?
    {
      appAccess := None;
    }
  }

  /** authorization_permission_node: decides from the context's application and never hands on. */
  method PermissionNode(req: AuthorizationRequest, ctx: AuthorizationContext) returns (authorized: bool)
    requires ctx.appAccess.Some?
    ensures authorized == PermissionCheck(req, ctx.appAccess.value)
  {
    var app := ctx.appAccess.value;
    if req.clientIp != "" && !IsIpWhitelisted(app, req.clientIp) {
      return false;
    }
    if !(app.allowedEndpoints == {} || (req.endpointId.Some? && req.endpointId.value in app.allowedEndpoints)) {
      return false;
    }
    return true;
  }

  /** authorization_basic_node: the guards, then the application is recorded in the context and the permission node decides. */
  method BasicNode(req: AuthorizationRequest, ctx: AuthorizationContext, findByAppId: string -> Option<AppState>, now: Instant)
    returns (authorized: bool)
    modifies ctx
    ensures authorized == Authorize(req, findByAppId, now)
    ensures var b := BasicCheck(req, findByAppId, now);
      ctx.appAccess == (if b.Some? then b else old(ctx.appAccess))
  {
    if req.appId.None? || req.endpointId.None? {
      return false;
    }
    var found := findByAppId(req.appId.value);
    if found.None? {
      return false;
    }
    var app := found.value;
    if app.status != ACTIVE {
      return false;
    }
    if IsExpired(app, now) {
      return false;
    }
    ctx.appAccess := Some(app);
    authorized := PermissionNode(req, ctx);
  }
}
