// AuthGateway: the reception side's port into authentication, authorization and rate limiting.
// It remembers the context of every successful authentication, per application id, and
// authorizes later requests of that application against the remembered context.
module AuthGateways {
  import opened Wrappers
  import opened Domain
  import opened AccessKeys
  import opened AuthAppAccess
  import opened AuthContexts
  import opened AuthResults
  import opened Permissions
  import opened ExpiringCache
  import AppIds
  import AuthCache
  import AuthServices
  import AuthRateLimit
  import ReceptionRateLimit
  import RateLimitChecks

  /** convertToReceptionDomainResult: a success becomes a success DTO for its application, a failure keeps its code and message. */
  function ToDto(r: AuthResult): (d: AuthResultDTO)
    ensures DtoIsSuccess(d) <==> IsSuccess(r)
    ensures IsSuccess(r) ==> d == DtoSuccess(r.context.value.appId)
    ensures !IsSuccess(r) ==> !d.authenticated && d.appId.None?
    ensures !IsSuccess(r) ==> d.errorCode == r.errorCode && d.errorMessage == r.errorMessage
  {
    if IsSuccess(r) then DtoSuccess(AppIdValue(r).value)
    else AuthResultDTO(false, false, None, r.errorCode, r.errorMessage)
  }

  /** A failure made by the domain factory converts to the DTO failure factory with the same code and message. */
  lemma FailureConvertsToFailure(code: string, message: string)
    ensures ToDto(AuthenticationFailed(code, message)) == DtoAuthenticationFailed(code, message)
  {
  }

  /**
   * authenticate: the domain verdict converted to a DTO; a success also stores its context under
   * its application id, replacing any earlier one. A malformed access key raises (Err).
   */
  function AuthenticateSpec(contexts: map<string, AuthContext>, req: AuthServices.AuthRequest,
                            findByAccessKey: AccessKey -> Option<AppRecord>, now: Instant,
                            sign: (string, string) -> string): (Result<AuthResultDTO, string>, map<string, AuthContext>)
  {
    match AuthServices.Authenticate(req, findByAccessKey, now, sign)
    case Err(msg) => (Err(msg), contexts)
    case Ok(r) =>
      if IsSuccess(r) then (Ok(ToDto(r)), contexts[r.context.value.appId := r.context.value])
      else (Ok(ToDto(r)), contexts)
  }

  /**
   * A successful authentication stores exactly the context AuthService built, under that
   * application's id, and leaves every other entry alone; any other outcome changes nothing and
   * passes the code and message through.
   */
  lemma AuthenticateRemembersContext(contexts: map<string, AuthContext>, req: AuthServices.AuthRequest,
                                     findByAccessKey: AccessKey -> Option<AppRecord>, now: Instant,
                                     sign: (string, string) -> string)
    ensures var (d, after) := AuthenticateSpec(contexts, req, findByAccessKey, now, sign);
      var r := AuthServices.Authenticate(req, findByAccessKey, now, sign);
      (d.Ok? && DtoIsSuccess(d.value) <==> r.Ok? && IsSuccess(r.value))
      && (d.Ok? && DtoIsSuccess(d.value) ==>
            var app := findByAccessKey(NewAccessKey(req.accessKey).value).value;
            d.value.appId == Some(app.id)
            && after == contexts[app.id := AuthServices.ContextOf(app, req, now)])
      && (!(d.Ok? && DtoIsSuccess(d.value)) ==> after == contexts)
      && (r.Ok? && !IsSuccess(r.value) ==>
            d.Ok? && d.value.errorCode == r.value.errorCode && d.value.errorMessage == r.value.errorMessage)
  {
    AuthServices.AuthenticateSucceedsIff(req, findByAccessKey, now, sign);
  }

  /** The context getAuthContext builds when none is remembered: the record's rights, an empty client IP and method NONE. */
  function FallbackContext(app: AppRecord, now: Instant): (ctx: AuthContext)
    ensures ctx.clientIp == "" && ctx.authMethod == NONE
    ensures ctx.appId == app.id && ctx.appStatus == app.status
    ensures ctx.allowedEndpoints == app.allowedEndpoints && ctx.ipWhitelist == app.ipWhitelist
  {
    AuthContext(app.id, "", now, NONE, app.status, app.allowedEndpoints, app.ipWhitelist,
                app.rateLimit, app.burstCapacity)
  }

  /** new AppId(appId) as the gateway builds it before calling into the authentication side: Err is the AppException. */
  function CheckedAppId(appId: string): (r: Result<AppIds.AppId, string>)
    ensures r.Ok? <==> AppIds.ValidAppId(appId)
    ensures r.Err? ==> r.error == AppIds.InvalidAppIdMessage
  {
    AppIds.NewAppId(Some(appId))
  }

  /**
   * getAuthContext: the remembered context; else, after new AppId(appId) (which raises for a
   * malformed id), one built from the application record (and remembered), else none.
   */
  function ResolveContext(contexts: map<string, AuthContext>, appId: string, findByAppId: string -> Option<AppRecord>,
                          now: Instant): (Result<Option<AuthContext>, string>, map<string, AuthContext>)
  {
    if appId in contexts then (Ok(Some(contexts[appId])), contexts)
    else if CheckedAppId(appId).Err? then (Err(CheckedAppId(appId).error), contexts)
    else match findByAppId(appId)
      case None => (Ok(None), contexts)
      case Some(app) => (Ok(Some(FallbackContext(app, now))), contexts[appId := FallbackContext(app, now)])
  }

  /**
   * Resolution raises exactly for a malformed id that is not remembered, and then remembers
   * nothing; otherwise it finds a context exactly when one is remembered or the application
   * exists. It is stable: resolving again, later, gives the same outcome and remembers nothing new.
   */
  lemma ResolveIsStable(contexts: map<string, AuthContext>, appId: string, findByAppId: string -> Option<AppRecord>,
                        now: Instant, later: Instant)
    ensures var (ctx, after) := ResolveContext(contexts, appId, findByAppId, now);
      (ctx.Err? <==> appId !in contexts && !AppIds.ValidAppId(appId))
      && (ctx.Err? ==> ctx.error == AppIds.InvalidAppIdMessage && after == contexts)
      && (ctx.Ok? ==> (ctx.value.Some? <==> appId in contexts || findByAppId(appId).Some?))
      && (ctx.Ok? && ctx.value.Some? ==> appId in after && after[appId] == ctx.value.value)
      && ResolveContext(after, appId, findByAppId, later) == (ctx, after)
      && after.Keys <= contexts.Keys + {appId}
  {
  }

  /**
   * authorize: resolve the application's context (raising for a malformed id that is not
   * remembered); with none the answer is false; otherwise it is AuthService.authorize on the
   * endpoint-access permission, through its five-minute cache. The client IP argument is not used.
   */
  function AuthorizeSpec(contexts: map<string, AuthContext>, authCache: map<string, Entry>, appId: string,
                         endpointId: string, clientIp: string, findByAppId: string -> Option<AppRecord>,
                         now: Instant): (Result<bool, string>, map<string, AuthContext>, map<string, Entry>)
  {
    var (ctx, after) := ResolveContext(contexts, appId, findByAppId, now);
    match ctx
    case Err(msg) => (Err(msg), after, authCache)
    case Ok(None) => (Ok(false), after, authCache)
    case Ok(Some(c)) =>
      var p := ForEndpoint(endpointId);
      var (ok, cache) := Lookup(authCache, AuthServices.AuthorizationKey(c.appId, p),
                                AuthServices.AuthorizeDecision(c, p), AuthCache.AuthTtlMs, now);
      (Ok(ok), after, cache)
  }

  /**
   * With neither a remembered context nor an application record, authorize changes nothing: it
   * refuses a well-formed id and raises the AppId exception for a malformed one.
   */
  lemma AuthorizeNeedsContext(contexts: map<string, AuthContext>, authCache: map<string, Entry>, appId: string,
                              endpointId: string, clientIp: string, findByAppId: string -> Option<AppRecord>,
                              now: Instant)
    requires appId !in contexts && findByAppId(appId).None?
    ensures AppIds.ValidAppId(appId) ==>
      AuthorizeSpec(contexts, authCache, appId, endpointId, clientIp, findByAppId, now) == (Ok(false), contexts, authCache)
    ensures !AppIds.ValidAppId(appId) ==>
      AuthorizeSpec(contexts, authCache, appId, endpointId, clientIp, findByAppId, now)
        == (Err(AppIds.InvalidAppIdMessage), contexts, authCache)
  {
  }

  /** authorize's answer and effects do not depend on the client IP it is given. */
  lemma AuthorizeIgnoresClientIp(contexts: map<string, AuthContext>, authCache: map<string, Entry>, appId: string,
                                 endpointId: string, ip1: string, ip2: string, findByAppId: string -> Option<AppRecord>,
                                 now: Instant)
    ensures AuthorizeSpec(contexts, authCache, appId, endpointId, ip1, findByAppId, now)
         == AuthorizeSpec(contexts, authCache, appId, endpointId, ip2, findByAppId, now)
  {
  }

  /**
   * After a successful authentication, and with no cached verdict for the endpoint, authorize
   * answers with the authenticated context: so the IP of the authenticating request, not the
   * IP of the request being authorized, is checked against the whitelist.
   */
  lemma AuthorizeUsesAuthenticatedIp(contexts: map<string, AuthContext>, authCache: map<string, Entry>,
                                     req: AuthServices.AuthRequest, findByAccessKey: AccessKey -> Option<AppRecord>,
                                     endpointId: string, clientIp: string, findByAppId: string -> Option<AppRecord>,
                                     now: Instant, sign: (string, string) -> string)
    requires var (d, _) := AuthenticateSpec(contexts, req, findByAccessKey, now, sign); d.Ok? && DtoIsSuccess(d.value)
    ensures var (d, after) := AuthenticateSpec(contexts, req, findByAccessKey, now, sign);
      var app := findByAccessKey(NewAccessKey(req.accessKey).value).value;
      var key := AuthServices.AuthorizationKey(app.id, ForEndpoint(endpointId));
      key !in authCache ==>
        AuthorizeSpec(after, authCache, app.id, endpointId, clientIp, findByAppId, now).0
        == Ok(AuthServices.AuthorizeDecision(AuthServices.ContextOf(app, req, now), ForEndpoint(endpointId)))
  {
    AuthenticateRemembersContext(contexts, req, findByAccessKey, now, sign);
  }

  class AuthGateway {
    var contexts: map<string, AuthContext>
    const service: AuthServices.AuthService
    const rateLimits: AuthRateLimit.RateLimitService

    constructor (service: AuthServices.AuthService, rateLimits: AuthRateLimit.RateLimitService)
      ensures this.service == service && this.rateLimits == rateLimits && contexts == map[]
    {
      this.service := service;
      this.rateLimits := rateLimits;
      contexts := map[];
    }

    method Authenticate(req: AuthServices.AuthRequest, findByAccessKey: AccessKey -> Option<AppRecord>, now: Instant,
                        sign: (string, string) -> string) returns (r: Result<AuthResultDTO, string>)
      modifies this`contexts
      ensures (r, contexts) == AuthenticateSpec(old(contexts), req, findByAccessKey, now, sign)
    {
      var result := AuthServices.Authenticate(req, findByAccessKey, now, sign);
      if result.Err? {
        return Err(result.error);
      }
      if IsSuccess(result.value) {
        var ctx := result.value.context.value;
        contexts := contexts[ctx.appId := ctx];
      }
      r := Ok(ToDto(result.value));
    }

    method GetAuthContext(appId: string, findByAppId: string -> Option<AppRecord>, now: Instant)
      returns (ctx: Result<Option<AuthContext>, string>)
      modifies this`contexts
      ensures (ctx, contexts) == ResolveContext(old(contexts), appId, findByAppId, now)
    {
      if appId in contexts {
        return Ok(Some(contexts[appId]));
      }
      var id := CheckedAppId(appId);
      if id.Err? {
        return Err(id.error);
      }
      match findByAppId(appId)
      case None =>
        ctx := Ok(None);
      case Some(app) =>
        var c := FallbackContext(app, now);
        contexts := contexts[appId := c];
        ctx := Ok(Some(c));
    }

    method Authorize(appId: string, endpointId: string, clientIp: string, findByAppId: string -> Option<AppRecord>,
                     now: Instant) returns (ok: Result<bool, string>)
      modifies this`contexts, service.cache`authCache
      ensures (ok, contexts, service.cache.authCache)
           == AuthorizeSpec(old(contexts), old(service.cache.authCache), appId, endpointId, clientIp, findByAppId, now)
    {
      var ctx := GetAuthContext(appId, findByAppId, now);
      if ctx.Err? {
        return Err(ctx.error);
      }
      if ctx.value.None? {
        return Ok(false);
      }
      var granted := service.AuthorizeEndpoint(ctx.value.value, endpointId, now);
      ok := Ok(granted);
    }

    /** isIpWhitelisted: new AppId(appId) raises for a malformed id; otherwise delegated to AuthService. */
    method IsIpWhitelisted(appId: string, clientIp: Option<string>, findByAppId: string -> Option<AppRecord>)
      returns (ok: Result<bool, string>)
      ensures ok.Err? <==> !AppIds.ValidAppId(appId)
      ensures ok.Err? ==> ok.error == AppIds.InvalidAppIdMessage
      ensures ok.Ok? ==> ok.value == AuthServices.IsIpWhitelisted(appId, clientIp, findByAppId)
    {
      var id := CheckedAppId(appId);
      if id.Err? {
        return Err(id.error);
      }
      ok := Ok(AuthServices.IsIpWhitelisted(appId, clientIp, findByAppId));
    }

    /** isRateLimited(appId): new AppId(appId) raises for a malformed id, touching nothing; otherwise the cached single check at application level. */
    method IsRateLimited(appId: string) returns (limited: Result<bool, string>)
      requires rateLimits.limiter.Valid()
      modifies rateLimits`statusCache, rateLimits.limiter.buckets.Values
      ensures rateLimits.limiter.Valid()
      ensures limited.Err? <==> !AppIds.ValidAppId(appId)
      ensures limited.Err? ==> limited.error == AppIds.InvalidAppIdMessage
      ensures limited.Err? ==> rateLimits.statusCache == old(rateLimits.statusCache)
                               && rateLimits.limiter.States() == old(rateLimits.limiter.States())
      ensures var spec := RateLimitChecks.CachedCheck(old(rateLimits.statusCache), old(rateLimits.limiter.States()),
                                                    AuthRateLimit.AppKey(appId));
        limited.Ok? ==> limited.value == spec.limited && rateLimits.statusCache == spec.cache
                        && rateLimits.limiter.States() == spec.buckets
    {
      var id := CheckedAppId(appId);
      if id.Err? {
        return Err(id.error);
      }
      var l := rateLimits.IsAppRateLimited(appId);
      limited := Ok(l);
    }

    /** isRateLimited(appId, endpointId): the AppId check, then the cached single check at endpoint level. */
    method IsEndpointRateLimited(appId: string, endpointId: string) returns (limited: Result<bool, string>)
      requires rateLimits.limiter.Valid()
      modifies rateLimits`statusCache, rateLimits.limiter.buckets.Values
      ensures rateLimits.limiter.Valid()
      ensures limited.Err? <==> !AppIds.ValidAppId(appId)
      ensures limited.Err? ==> limited.error == AppIds.InvalidAppIdMessage
      ensures limited.Err? ==> rateLimits.statusCache == old(rateLimits.statusCache)
                               && rateLimits.limiter.States() == old(rateLimits.limiter.States())
      ensures var spec := RateLimitChecks.CachedCheck(old(rateLimits.statusCache), old(rateLimits.limiter.States()),
                                                    AuthRateLimit.EndpointKey(appId, endpointId));
        limited.Ok? ==> limited.value == spec.limited && rateLimits.statusCache == spec.cache
                        && rateLimits.limiter.States() == spec.buckets
    {
      var id := CheckedAppId(appId);
      if id.Err? {
        return Err(id.error);
      }
      var l := rateLimits.IsEndpointRateLimited(appId, endpointId);
      limited := Ok(l);
    }

    /** isRateLimited(appId, count): the AppId check, then the count check at application level. */
    method IsRateLimitedCount(appId: string, count: int) returns (limited: Result<bool, string>)
      requires rateLimits.limiter.Valid()
      modifies rateLimits`statusCache, rateLimits.limiter.buckets.Values
      ensures count >= 0 ==> rateLimits.limiter.Valid()
      ensures limited.Err? <==> !AppIds.ValidAppId(appId)
      ensures limited.Err? ==> limited.error == AppIds.InvalidAppIdMessage
      ensures limited.Err? ==> rateLimits.statusCache == old(rateLimits.statusCache)
                               && rateLimits.limiter.States() == old(rateLimits.limiter.States())
      ensures var spec := RateLimitChecks.CountCheck(old(rateLimits.statusCache), old(rateLimits.limiter.States()),
                                                   AuthRateLimit.AppKey(appId), count);
        limited.Ok? ==> limited.value == spec.limited && rateLimits.statusCache == spec.cache
                        && rateLimits.limiter.States() == spec.buckets
    {
      var id := CheckedAppId(appId);
      if id.Err? {
        return Err(id.error);
      }
      var l := rateLimits.IsRateLimitedCount(AuthRateLimit.AppKey(appId), count);
      limited := Ok(l);
    }

    /** isRateLimited(appId, endpointId, count): the AppId check, then the count check at endpoint level. */
    method IsEndpointRateLimitedCount(appId: string, endpointId: string, count: int) returns (limited: Result<bool, string>)
      requires rateLimits.limiter.Valid()
      modifies rateLimits`statusCache, rateLimits.limiter.buckets.Values
      ensures count >= 0 ==> rateLimits.limiter.Valid()
      ensures limited.Err? <==> !AppIds.ValidAppId(appId)
      ensures limited.Err? ==> limited.error == AppIds.InvalidAppIdMessage
      ensures limited.Err? ==> rateLimits.statusCache == old(rateLimits.statusCache)
                               && rateLimits.limiter.States() == old(rateLimits.limiter.States())
      ensures var spec := RateLimitChecks.CountCheck(old(rateLimits.statusCache), old(rateLimits.limiter.States()),
                                                   AuthRateLimit.EndpointKey(appId, endpointId), count);
        limited.Ok? ==> limited.value == spec.limited && rateLimits.statusCache == spec.cache
                        && rateLimits.limiter.States() == spec.buckets
    {
      var id := CheckedAppId(appId);
      if id.Err? {
        return Err(id.error);
      }
      var l := rateLimits.IsRateLimitedCount(AuthRateLimit.EndpointKey(appId, endpointId), count);
      limited := Ok(l);
    }

    /**
     * getRateLimitConfig: the AppId check, then the endpoint-level configuration, restated as the
     * reception side's config for (appId, endpointId).
     */
    method GetRateLimitConfig(appId: string, endpointId: string, limiterConfig: string -> Option<(int, int)>)
      returns (config: Result<ReceptionRateLimit.RateLimitConfig, string>)
      modifies rateLimits`configCache
      ensures config.Err? <==> !AppIds.ValidAppId(appId)
      ensures config.Err? ==> config.error == AppIds.InvalidAppIdMessage && rateLimits.configCache == old(rateLimits.configCache)
      ensures var (c, cache) := AuthRateLimit.EndpointConfig(old(rateLimits.configCache), appId, endpointId, limiterConfig);
        config.Ok? ==> config.value == ReceptionRateLimit.RateLimitConfig(appId, endpointId, c.rateLimit, c.burstCapacity)
                       && rateLimits.configCache == cache
    {
      var id := CheckedAppId(appId);
      if id.Err? {
        return Err(id.error);
      }
      var c := rateLimits.GetEndpointConfig(appId, endpointId, limiterConfig);
      config := Ok(ReceptionRateLimit.RateLimitConfig(appId, endpointId, c.rateLimit, c.burstCapacity));
    }
  }
}
