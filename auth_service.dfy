// AuthService: authenticates a request against the application registry and authorizes permissions.
module AuthServices {
  import opened Wrappers
  import opened Domain
  import Text
  import JavaInt
  import opened AccessKeys
  import opened AuthAppAccess
  import opened AuthContexts
  import opened AuthResults
  import opened Permissions
  import opened ExpiringCache
  import AuthCache

  /** How far a request's timestamp may lie from the server clock, in milliseconds. */
  const TimestampValidityMs: int := 300000

  // ---- Long.parseLong and its inverse ----

  /** Long.parseLong on ASCII input: an optional sign, one or more digits, a value that fits in a long. */
  function ParseLong(s: Option<string>): (r: Option<int>)
    ensures r.Some? ==> JavaInt.InInt64(r.value)
  {
    if s.None? || s.value == [] then None
    else
      var t := s.value;
      var digits := if t[0] == '-' || t[0] == '+' then t[1..] else t;
      if digits == [] || !Text.AllDigits(digits) then None
      else
        var n: int := Text.DecimalValue(digits);
        var v := if t[0] == '-' then 0 - n else n;
        if JavaInt.InInt64(v) then Some(v) else None
  }

  function DigitChar(d: int): (c: char)
    requires 0 <= d < 10
    ensures Text.IsAsciiDigit(c) && Text.DigitValue(c) == d
  {
    ('0' as int + d) as char
  }

  /** The decimal digits of n, without leading zeros. */
  function Decimal(n: nat): (s: string)
    ensures s != [] && Text.AllDigits(s) && Text.DecimalValue(s) == n
    decreases n
  {
    if n < 10 then [DigitChar(n)]
    else
      var init := Decimal(n / 10);
      var s := init + [DigitChar(n % 10)];
      assert s[..|s| - 1] == init;
      s
  }

  /** Long.toString. */
  function LongToString(n: int): string
  {
    if n < 0 then "-" + Decimal(-n) else Decimal(n)
  }

  /** Every long survives printing and parsing back. */
  lemma ParseLongRoundTrip(n: int)
    requires JavaInt.InInt64(n)
    ensures ParseLong(Some(LongToString(n))) == Some(n)
  {
    var t := LongToString(n);
    if n < 0 {
      assert t[1..] == Decimal(-n);
    }
  }

  // ---- The timestamp window ----

  /** As written: Math.abs(now - timestamp) > 300000 on longs, where the difference can wrap. */
  predicate TimestampStaleAsWritten(now: Instant, ts: int)
    requires JavaInt.InInt64(now) && JavaInt.InInt64(ts)
  {
    JavaInt.AbsInt64(JavaInt.WrapInt64(now - ts)) > TimestampValidityMs
  }

  /** As intended: the timestamp lies more than five minutes from the clock, on either side. */
  predicate TimestampStale(now: Instant, ts: int)
  {
    now - ts > TimestampValidityMs || ts - now > TimestampValidityMs
  }

  /** A timestamp 2^63 ms before a present-day clock passes the written check, though it is far from now. */
  lemma StaleTimestampAccepted()
    ensures var now := 1700000000000;
      !TimestampStaleAsWritten(now, now - JavaInt.Two63) && TimestampStale(now, now - JavaInt.Two63)
  {
  }

  /**
   * For any clock between the epoch and 2^62 ms, the written check accepts exactly the timestamps
   * within five minutes, plus the single timestamp now - 2^63 whose difference wraps to Long.MIN_VALUE.
   */
  lemma TimestampCheckCharacterised(now: Instant, ts: int)
    requires 0 <= now <= JavaInt.Two63 / 2 && JavaInt.InInt64(ts)
    ensures !TimestampStaleAsWritten(now, ts) <==> !TimestampStale(now, ts) || ts == now - JavaInt.Two63
  {
    var d := now - ts;
    if d >= JavaInt.Two63 {
      var w := JavaInt.WrapInt64(d);
      assert w == d - 2 * JavaInt.Two63;
      if w != -JavaInt.Two63 {
        assert JavaInt.AbsInt64(w) == -w;
      }
    }
  }

  // ---- The HMAC signature ----

  /** The signed text: accessKey + timestamp + body, where a null body reads as "null". */
  function SignatureMessage(accessKey: string, timestamp: string, payload: Option<string>): string
  {
    accessKey + timestamp + (if payload.None? then "null" else payload.value)
  }

  /**
   * verifySignature, with Base64(HMAC-SHA256(secret, message)) given as `sign`: an empty secret
   * or a null signature raises and counts as a mismatch; otherwise the texts are compared.
   */
  function VerifySignature(signature: Option<string>, accessKey: string, secretKey: string, timestamp: string,
                           payload: Option<string>, sign: (string, string) -> string): bool
  {
    secretKey != "" && signature.Some?
    && signature.value == sign(secretKey, SignatureMessage(accessKey, timestamp, payload))
  }

  /** A client that signs with the application's secret is accepted, exactly when that secret is non-empty. */
  lemma SignThenVerify(accessKey: string, secretKey: string, timestamp: string, payload: Option<string>,
                       sign: (string, string) -> string)
    ensures var signature := Some(sign(secretKey, SignatureMessage(accessKey, timestamp, payload)));
      VerifySignature(signature, accessKey, secretKey, timestamp, payload, sign) <==> secretKey != ""
  {
  }

  /** A request without a body verifies exactly like one whose body is the text "null". */
  lemma NullBodySignsAsText(signature: Option<string>, accessKey: string, secretKey: string, timestamp: string,
                            sign: (string, string) -> string)
    ensures VerifySignature(signature, accessKey, secretKey, timestamp, None, sign)
         == VerifySignature(signature, accessKey, secretKey, timestamp, Some("null"), sign)
  {
  }

  // ---- authenticate ----

  datatype AuthRequest = AuthRequest(
    accessKey: Option<string>,
    signature: Option<string>,
    timestamp: Option<string>,
    clientIp: string,
    authMethod: AuthMethod,
    requestBody: Option<string>)

  function Failed(c: ResponseCode): AuthResult
  {
    AuthenticationFailed(Code(c), Info(c))
  }

  /** The context a successful authentication carries: the application's rights at that instant. */
  function ContextOf(app: AppRecord, req: AuthRequest, now: Instant): AuthContext
  {
    AuthContext(app.id, req.clientIp, now, req.authMethod, app.status, app.allowedEndpoints,
                app.ipWhitelist, app.rateLimit, app.burstCapacity)
  }

  /**
   * authenticate: a malformed access key raises (Err); then, in order, unknown key, status other
   * than ACTIVE, expiry, unparsable timestamp, stale timestamp and (for HMAC requests) a bad
   * signature each fail with their code; otherwise success. `findByAccessKey` is the repository.
   */
  function Authenticate(req: AuthRequest, findByAccessKey: AccessKey -> Option<AppRecord>, now: Instant,
                        sign: (string, string) -> string): Result<AuthResult, string>
  {
    match NewAccessKey(req.accessKey)
    case Err(msg) => Err(msg)
    case Ok(key) =>
      match findByAccessKey(key)
      case None => Ok(Failed(INVALID_ACCESS_KEY))
      case Some(app) =>
        if app.status != ACTIVE then
          Ok(AuthenticationFailed(Code(INVALID_APP_STATUS), Info(INVALID_APP_STATUS) + ":" + StatusInfo(app.status)))
        else if IsExpired(app, now) then Ok(Failed(APP_ACCESS_EXPIRED))
        else
          match ParseLong(req.timestamp)
          case None => Ok(Failed(INVALID_TIMESTAMP_FORMAT))
          case Some(ts) =>
            if TimestampStale(now, ts) then Ok(Failed(INVALID_TIMESTAMP))
            else if req.authMethod == HMAC_SIGNATURE
                    && !VerifySignature(req.signature, key.value, app.secretKey, req.timestamp.value, req.requestBody, sign)
            then Ok(Failed(SIGNATURE_VALIDATION_FAILED))
            else Ok(Success(ContextOf(app, req, now)))
  }

  /** The conditions under which authenticate succeeds, all of them and nothing more. */
  predicate Admissible(req: AuthRequest, key: AccessKey, app: AppRecord, now: Instant, sign: (string, string) -> string)
  {
    && app.status == ACTIVE
    && !IsExpired(app, now)
    && ParseLong(req.timestamp).Some?
    && !TimestampStale(now, ParseLong(req.timestamp).value)
    && (req.authMethod == HMAC_SIGNATURE ==>
          VerifySignature(req.signature, key.value, app.secretKey, req.timestamp.value, req.requestBody, sign))
  }

  /**
   * authenticate succeeds exactly for a well-formed, registered key whose application is admissible,
   * and the context it returns carries that application's id, status and rights and the client's IP.
   */
  lemma AuthenticateSucceedsIff(req: AuthRequest, findByAccessKey: AccessKey -> Option<AppRecord>, now: Instant,
                                sign: (string, string) -> string)
    ensures var r := Authenticate(req, findByAccessKey, now, sign);
      r.Ok? && IsSuccess(r.value) <==>
        NewAccessKey(req.accessKey).Ok? && findByAccessKey(NewAccessKey(req.accessKey).value).Some?
        && Admissible(req, NewAccessKey(req.accessKey).value, findByAccessKey(NewAccessKey(req.accessKey).value).value, now, sign)
    ensures var r := Authenticate(req, findByAccessKey, now, sign);
      r.Ok? && IsSuccess(r.value) ==>
        r.value.context == Some(ContextOf(findByAccessKey(NewAccessKey(req.accessKey).value).value, req, now))
  {
  }

  /** The checks run in order: a non-active application fails on its status whatever else is wrong. */
  lemma StatusCheckedBeforeTimestamp(req: AuthRequest, findByAccessKey: AccessKey -> Option<AppRecord>, now: Instant,
                                     sign: (string, string) -> string)
    requires NewAccessKey(req.accessKey).Ok?
    requires findByAccessKey(NewAccessKey(req.accessKey).value).Some?
    requires findByAccessKey(NewAccessKey(req.accessKey).value).value.status != ACTIVE
    ensures Authenticate(req, findByAccessKey, now, sign).Ok?
    ensures Authenticate(req, findByAccessKey, now, sign).value.errorCode == Some(Code(INVALID_APP_STATUS))
  {
  }

  // ---- authorize ----

  /** The verdict authorize's supplier computes. */
  function AuthorizeDecision(ctx: AuthContext, p: Permission): bool
  {
    if !IsActive(ctx) then false
    else if ctx.clientIp != "" && !AuthContexts.IsIpWhitelisted(ctx, ctx.clientIp) then false
    else match p.kind
      case ENDPOINT_ACCESS => AuthContexts.IsEndpointAllowed(ctx, p.resource)
      case _ => true
  }

  /** A permission is granted exactly to an active application, from an admitted (or empty) IP, for an allowed endpoint. */
  lemma DecisionMeaning(ctx: AuthContext, p: Permission)
    ensures AuthorizeDecision(ctx, p) <==>
      IsActive(ctx)
      && (ctx.clientIp == "" || AuthContexts.IsIpWhitelisted(ctx, ctx.clientIp))
      && (p.kind == ENDPOINT_ACCESS ==> AuthContexts.IsEndpointAllowed(ctx, p.resource))
  {
  }

  /** The verdict cache key: application and permission, not the client IP. */
  function AuthorizationKey(appId: string, p: Permission): string
  {
    "auth:" + appId + ":" + Permissions.ToString(p)
  }

  /**
   * Because the key leaves out the client IP, a verdict computed for a whitelisted IP is served,
   * for the next five minutes, to a request of the same application from an IP outside the whitelist.
   */
  lemma CachedVerdictCrossesIps(now: Instant)
    ensures var ctx1 := AuthContext("app", "10.0.0.1", now, API_KEY, ACTIVE, {}, {"10.0.0.1"}, 10, 20);
      var ctx2 := ctx1.(clientIp := "10.0.0.2");
      var p := ForEndpoint("ep");
      var (first, cache) := Lookup(map[], AuthorizationKey("app", p), AuthorizeDecision(ctx1, p), AuthCache.AuthTtlMs, now);
      first && !AuthorizeDecision(ctx2, p)
      && Lookup(cache, AuthorizationKey("app", p), AuthorizeDecision(ctx2, p), AuthCache.AuthTtlMs, now).0
  {
  }

  /** isIpWhitelisted: a null or empty IP passes, an unknown application fails, else the whitelist decides. */
  function IsIpWhitelisted(appId: string, clientIp: Option<string>, findByAppId: string -> Option<AppRecord>): (ok: bool)
    ensures clientIp.None? || clientIp.value == "" ==> ok
    ensures clientIp.Some? && clientIp.value != "" && findByAppId(appId).None? ==> !ok
    ensures clientIp.Some? && clientIp.value != "" && findByAppId(appId).Some? ==>
              (ok <==> AuthAppAccess.IsIpWhitelisted(findByAppId(appId).value, clientIp.value))
  {
    if clientIp.None? || clientIp.value == "" then true
    else match findByAppId(appId)
      case None => false
      case Some(app) => AuthAppAccess.IsIpWhitelisted(app, clientIp.value)
  }

  class AuthService {
    const cache: AuthCache.AuthorizationCache

    constructor (cache: AuthCache.AuthorizationCache)
      ensures this.cache == cache
    {
      this.cache := cache;
    }

    /** authorize: the supplier's verdict, served from the cache for five minutes per (app, permission). */
    method Authorize(ctx: AuthContext, p: Permission, now: Instant) returns (ok: bool)
      modifies cache`authCache
      ensures (ok, cache.authCache)
           == Lookup(old(cache.authCache), AuthorizationKey(ctx.appId, p), AuthorizeDecision(ctx, p), AuthCache.AuthTtlMs, now)
    {
      ok := cache.GetAuthorizationResultByKey(AuthorizationKey(ctx.appId, p), AuthorizeDecision(ctx, p), now);
    }

    /** authorizeEndpoint: authorize with the endpoint-access permission. */
    method AuthorizeEndpoint(ctx: AuthContext, endpointId: string, now: Instant) returns (ok: bool)
      modifies cache`authCache
      ensures (ok, cache.authCache) == Lookup(old(cache.authCache), AuthorizationKey(ctx.appId, ForEndpoint(endpointId)),
                                               AuthorizeDecision(ctx, ForEndpoint(endpointId)), AuthCache.AuthTtlMs, now)
    {
      ok := Authorize(ctx, ForEndpoint(endpointId), now);
    }
  }
}
