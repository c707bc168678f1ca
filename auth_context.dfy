// AuthContext: the immutable snapshot of an application's access rights made at authentication.
module AuthContexts {
  import opened Domain

  datatype AuthContext = AuthContext(
    appId: string,
    clientIp: string,
    authenticatedAt: Instant,
    authMethod: AuthMethod,
    appStatus: AppAccessStatus,
    allowedEndpoints: set<string>,
    ipWhitelist: set<string>,
    rateLimit: int,
    burstCapacity: int)

  /** An empty whitelist admits every IP; a non-empty one admits exactly its members. */
  predicate IsIpWhitelisted(ctx: AuthContext, ip: string)
  {
    ctx.ipWhitelist == {} || ip in ctx.ipWhitelist
  }

  /** An empty endpoint set admits every endpoint; a non-empty one admits exactly its members. */
  predicate IsEndpointAllowed(ctx: AuthContext, endpointId: string)
  {
    ctx.allowedEndpoints == {} || endpointId in ctx.allowedEndpoints
  }

  predicate IsActive(ctx: AuthContext)
  {
    ctx.appStatus == ACTIVE
  }

  /**
   * Widening a non-empty whitelist never revokes an IP, but going from empty to one entry
   * revokes every other IP: the empty set is the most permissive whitelist.
   */
  lemma {:induction false} WhitelistWidening(ctx: AuthContext, extra: string, ip: string)
    ensures ctx.ipWhitelist != {} && IsIpWhitelisted(ctx, ip)
            ==> IsIpWhitelisted(ctx.(ipWhitelist := ctx.ipWhitelist + {extra}), ip)
    ensures ctx.ipWhitelist == {} && ip != extra
            ==> IsIpWhitelisted(ctx, ip) && !IsIpWhitelisted(ctx.(ipWhitelist := {extra}), ip)
  {
  }

  /** Allowed endpoints behave the same way: once the set is non-empty, membership decides. */
  lemma EndpointSetDecides(ctx: AuthContext, e: string)
    requires ctx.allowedEndpoints != {}
    ensures IsEndpointAllowed(ctx, e) <==> e in ctx.allowedEndpoints
  {
  }
}
