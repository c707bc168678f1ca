// The reception rule chain: basic → auth/limit → format/size → default node. Each node either
// stops the request with a failure or hands it to the next one; the first failure wins.
module ReceptionChains {
  import opened Wrappers
  import opened Domain
  import opened RawLogs
  import opened ReceptionResults
  import opened ReceiverEndpoints
  import opened LogBatches
  import opened BatchRepositories
  import opened LogBuffers
  import opened Metrics
  import opened AuthAppAccess
  import opened AuthContexts
  import AuthGateways
  import AppIds
  import AuthServices
  import AuthRateLimit
  import ReceptionRateLimit
  import RateLimitChecks
  import TokenBuckets
  import ExpiringCache
  import Text

  const ParamsMissing: string := "参数不能为空"
  const EndpointNotFound: string := "接收端点不存在"
  const EndpointNotActive: string := "接收端点未激活"
  const Unauthorized: string := "应用无权访问该端点"
  const IpNotWhitelisted: string := "IP不在白名单中"
  const RateLimited: string := "应用被限流"
  const NoValidLogs: string := "所有日志均不合规"
  const ClientIpKey: string := "clientIp"

  /** The bean names the single-log assembler looks up. */
  const BasicNodeName: string := "reception_basic_node"
  const AuthLimitNodeName: string := "reception_auth_limit_node"
  const FormatSizeNodeName: string := "reception_format_size_node"
  const SingletonDefaultNodeName: string := "reception_singleton_default_node"

  /** A reception request: the raw logs and the two ids, each of which may be null. */
  datatype ReceptionRequest = ReceptionRequest(rawLogs: Option<seq<RawLog>>, appId: Option<string>, endpointId: Option<string>)

  /**
   * What a check node decides: hand the request on, stop it with a failure message, or raise an
   * exception (an AppException) that leaves the chain with this message.
   */
  datatype Verdict = Pass | Fail(message: string) | Raise(message: string)

  /** The logs that passed the format and size check, those that did not, and the endpoint that judged them. */
  datatype Admitted = Admitted(endpoint: EndpointState, valid: seq<RawLog>, invalid: seq<RawLog>)

  /** How the check nodes end: every check passed, a node refused with its message, or a node raised. */
  datatype Admission = Passed(admitted: Admitted) | Refused(message: string) | Raised(message: string)

  /** What the basic node demands before any lookup: a non-empty log list and both ids. */
  predicate WellFormed(req: ReceptionRequest)
  {
    req.rawLogs.Some? && req.rawLogs.value != [] && req.appId.Some? && req.endpointId.Some?
  }

  /** The client IP the auth/limit nodes use: the first log's "clientIp" metadata, or "" when absent. */
  function ClientIp(req: ReceptionRequest): string
    requires WellFormed(req)
  {
    MetadataOrDefault(req.rawLogs.value[0], ClientIpKey, "")
  }

  // ---------------------------------------------------------------- basic node

  /** The basic node's guards: parameters, then the endpoint's existence, then its status. */
  function BasicCheck(req: ReceptionRequest, findEndpoint: string -> Option<EndpointState>): (r: Result<EndpointState, string>)
    ensures !WellFormed(req) ==> r == Err(ParamsMissing)
    ensures WellFormed(req) && findEndpoint(req.endpointId.value).None? ==> r == Err(EndpointNotFound)
    ensures (WellFormed(req) && findEndpoint(req.endpointId.value).Some?
             && findEndpoint(req.endpointId.value).value.status != EndpointActive) ==> r == Err(EndpointNotActive)
    ensures r.Ok? <==> WellFormed(req) && findEndpoint(req.endpointId.value).Some?
                       && findEndpoint(req.endpointId.value).value.status == EndpointActive
    ensures r.Ok? ==> Some(r.value) == findEndpoint(req.endpointId.value)
  {
    if !WellFormed(req) then Err(ParamsMissing)
    else match findEndpoint(req.endpointId.value)
      case None => Err(EndpointNotFound)
      case Some(e) => if e.status != EndpointActive then Err(EndpointNotActive) else Ok(e)
  }

  // ---------------------------------------------------------------- format/size node

  /** A log passes when its format is the endpoint's and its UTF-8 size does not exceed the payload limit. */
  predicate Acceptable(e: EndpointState, log: RawLog)
  {
    log.format == e.format && Text.Utf8Length(log.content) <= e.maxPayloadSize
  }

  /** The logs that pass, in their original order. */
  function Accepted(e: EndpointState, logs: seq<RawLog>): seq<RawLog>
  {
    if logs == [] then []
    else (if Acceptable(e, logs[0]) then [logs[0]] else []) + Accepted(e, logs[1..])
  }

  /** The logs that fail, in their original order. */
  function Rejected(e: EndpointState, logs: seq<RawLog>): seq<RawLog>
  {
    if logs == [] then []
    else (if Acceptable(e, logs[0]) then [] else [logs[0]]) + Rejected(e, logs[1..])
  }

  /** Splitting the input splits both lists the same way: each keeps the input's order. */
  lemma {:induction false} PartitionAppend(e: EndpointState, a: seq<RawLog>, b: seq<RawLog>)
    decreases |a|
    ensures Accepted(e, a + b) == Accepted(e, a) + Accepted(e, b)
    ensures Rejected(e, a + b) == Rejected(e, a) + Rejected(e, b)
  {
    if a == [] {
      assert a + b == b;
    } else {
      assert (a + b)[1..] == a[1..] + b;
      PartitionAppend(e, a[1..], b);
    }
  }

  /** A log is accepted iff it is acceptable and rejected iff it is not: every log lands in exactly one list. */
  lemma {:induction false} PartitionMembers(e: EndpointState, logs: seq<RawLog>)
    decreases |logs|
    ensures forall x :: x in Accepted(e, logs) <==> x in logs && Acceptable(e, x)
    ensures forall x :: x in Rejected(e, logs) <==> x in logs && !Acceptable(e, x)
  {
    if logs != [] {
      PartitionMembers(e, logs[1..]);
      assert forall x :: x in logs <==> x == logs[0] || x in logs[1..];
    }
  }

  /** Together the two lists hold the input exactly, duplicates included, so their lengths add up to it. */
  lemma {:induction false} PartitionCounts(e: EndpointState, logs: seq<RawLog>)
    decreases |logs|
    ensures multiset(Accepted(e, logs)) + multiset(Rejected(e, logs)) == multiset(logs)
    ensures |Accepted(e, logs)| + |Rejected(e, logs)| == |logs|
  {
    if logs != [] {
      PartitionCounts(e, logs[1..]);
      assert logs == [logs[0]] + logs[1..];
    }
  }

  /** A log of the wrong format is rejected whatever its size; one of the right format at exactly the limit passes. */
  lemma SizeLimitInclusive(e: EndpointState, log: RawLog)
    ensures log.format != e.format ==> Accepted(e, [log]) == [] && Rejected(e, [log]) == [log]
    ensures log.format == e.format && Text.Utf8Length(log.content) == e.maxPayloadSize ==> Accepted(e, [log]) == [log]
    ensures log.format == e.format && Text.Utf8Length(log.content) > e.maxPayloadSize ==> Rejected(e, [log]) == [log]
  {
    assert [log][1..] == [];
  }

  /** The format/size node's decision: both lists, or a failure when no log passes. */
  function FormatSizeCheck(e: EndpointState, logs: seq<RawLog>): (r: Result<Admitted, string>)
    ensures r.Err? <==> Accepted(e, logs) == []
    ensures r.Err? ==> r.error == NoValidLogs
    ensures r.Ok? ==> r.value == Admitted(e, Accepted(e, logs), Rejected(e, logs))
  {
    var valid := Accepted(e, logs);
    if valid == [] then Err(NoValidLogs) else Ok(Admitted(e, valid, Rejected(e, logs)))
  }

  /** The node's loop: each log goes to the invalid list on a format mismatch or an oversize payload, else to the valid list. */
  method Partition(e: EndpointState, logs: seq<RawLog>) returns (valid: seq<RawLog>, invalid: seq<RawLog>)
    ensures valid == Accepted(e, logs) && invalid == Rejected(e, logs)
  {
    valid, invalid := [], [];
    var i := 0;
    while i < |logs|
      invariant 0 <= i <= |logs|
      invariant valid == Accepted(e, logs[..i]) && invalid == Rejected(e, logs[..i])
    {
      var log := logs[i];
      PartitionAppend(e, logs[..i], [log]);
      assert logs[..i + 1] == logs[..i] + [log];
      assert [log][1..] == [];
      if log.format != e.format {
        invalid := invalid + [log];
      } else if Text.Utf8Length(log.content) > e.maxPayloadSize {
        invalid := invalid + [log];
      } else {
        valid := valid + [log];
      }
      i := i + 1;
    }
    assert logs[..i] == logs;
  }

  // ---------------------------------------------------------------- auth/limit node

  /** The gateway state the auth/limit node reads and writes: contexts, authorization cache, rate-limit cache and buckets. */
  datatype GatewayState = GatewayState(
    contexts: map<string, AuthContext>,
    authCache: map<string, ExpiringCache.Entry>,
    statusCache: map<string, bool>,
    buckets: map<string, TokenBuckets.BucketState>)

  /**
   * authorize, then isIpWhitelisted, then isRateLimited(appId, endpointId); the first refusal stops
   * the request. authorize raises for a malformed id it has no context for, and isIpWhitelisted
   * builds new AppId(appId), which raises for any malformed id; isRateLimited builds it again, but
   * by then the id has passed.
   */
  function AuthLimitSpec(g: GatewayState, appId: string, endpointId: string, clientIp: string,
                         findByAppId: string -> Option<AppRecord>, now: Instant): (GatewayState, Verdict)
  {
    var auth := AuthGateways.AuthorizeSpec(g.contexts, g.authCache, appId, endpointId, clientIp, findByAppId, now);
    var g1 := g.(contexts := auth.1, authCache := auth.2);
    if auth.0.Err? then (g1, Raise(auth.0.error))
    else if !auth.0.value then (g1, Fail(Unauthorized))
    else if AuthGateways.CheckedAppId(appId).Err? then (g1, Raise(AuthGateways.CheckedAppId(appId).error))
    else if !AuthServices.IsIpWhitelisted(appId, Some(clientIp), findByAppId) then (g1, Fail(IpNotWhitelisted))
    else
      var check := RateLimitChecks.CachedCheck(g.statusCache, g.buckets, AuthRateLimit.EndpointKey(appId, endpointId));
      (g1.(statusCache := check.cache, buckets := check.buckets), if check.limited then Fail(RateLimited) else Pass)
  }

  /**
   * The checks run in order and the first refusal or exception decides; an exception is the AppId
   * one, and it comes exactly when authorize raises, or authorizes a malformed id from a
   * remembered context. The rate limiter (its status cache and its buckets) is consulted only when
   * authorization and the whitelist both pass.
   */
  lemma AuthLimitOrder(g: GatewayState, appId: string, endpointId: string, clientIp: string,
                       findByAppId: string -> Option<AppRecord>, now: Instant)
    ensures var authorized := AuthGateways.AuthorizeSpec(g.contexts, g.authCache, appId, endpointId, clientIp, findByAppId, now).0;
      var valid := AppIds.ValidAppId(appId);
      var whitelisted := AuthServices.IsIpWhitelisted(appId, Some(clientIp), findByAppId);
      var check := RateLimitChecks.CachedCheck(g.statusCache, g.buckets, AuthRateLimit.EndpointKey(appId, endpointId));
      var r := AuthLimitSpec(g, appId, endpointId, clientIp, findByAppId, now);
      && (r.1.Raise? <==> authorized.Err? || (authorized == Ok(true) && !valid))
      && (r.1.Raise? ==> r.1.message == AppIds.InvalidAppIdMessage)
      && (r.1 == Fail(Unauthorized) <==> authorized == Ok(false))
      && (r.1 == Fail(IpNotWhitelisted) <==> authorized == Ok(true) && valid && !whitelisted)
      && (r.1 == Fail(RateLimited) <==> authorized == Ok(true) && valid && whitelisted && check.limited)
      && (r.1 == Pass <==> authorized == Ok(true) && valid && whitelisted && !check.limited)
      && (!(authorized == Ok(true) && valid && whitelisted) ==> r.0.statusCache == g.statusCache && r.0.buckets == g.buckets)
      && (authorized == Ok(true) && valid && whitelisted ==> r.0.statusCache == check.cache && r.0.buckets == check.buckets)
  {
  }

  /** The older auth/limit node: authorize through the authentication service, then the reception rate limiter; no whitelist stage. */
  function LegacyAuthLimitSpec(statusCache: map<string, bool>, buckets: map<string, TokenBuckets.BucketState>,
                               authorized: bool, appId: string, endpointId: string,
                               config: Option<ReceptionRateLimit.RateLimitConfig>): (RateLimitChecks.Check, Verdict)
  {
    if !authorized then (RateLimitChecks.Check(false, statusCache, buckets), Fail(Unauthorized))
    else
      var check := ReceptionRateLimit.SingleCheck(statusCache, buckets, ReceptionRateLimit.Key(appId, endpointId), config);
      (check, if check.limited then Fail(RateLimited) else Pass)
  }

  /**
   * The older node refuses an unauthorized request before the rate limiter sees it, and otherwise
   * passes exactly when the reception rate limiter does not limit.
   */
  lemma LegacyAuthLimitOrder(statusCache: map<string, bool>, buckets: map<string, TokenBuckets.BucketState>,
                             authorized: bool, appId: string, endpointId: string,
                             config: Option<ReceptionRateLimit.RateLimitConfig>)
    ensures var r := LegacyAuthLimitSpec(statusCache, buckets, authorized, appId, endpointId, config);
      var check := ReceptionRateLimit.SingleCheck(statusCache, buckets, ReceptionRateLimit.Key(appId, endpointId), config);
      && (!authorized ==> r.1 == Fail(Unauthorized) && r.0.cache == statusCache && r.0.buckets == buckets)
      && (authorized ==> r.0 == check && (r.1 == Pass <==> !check.limited) && (r.1 != Pass ==> r.1 == Fail(RateLimited)))
  {
  }

  /**
   * The authentication service bundled with the older node refuses every authorization, so with it
   * the older chain stops every well-formed request at this node and never touches the limiter.
   */
  lemma LegacyStubRefusesAll(statusCache: map<string, bool>, buckets: map<string, TokenBuckets.BucketState>,
                             appId: string, endpointId: string, clientIp: string,
                             config: Option<ReceptionRateLimit.RateLimitConfig>)
    ensures var authorize := (a: string, e: string, ip: string) => false;
      LegacyAuthLimitSpec(statusCache, buckets, authorize(appId, endpointId, clientIp), appId, endpointId, config)
        == (RateLimitChecks.Check(false, statusCache, buckets), Fail(Unauthorized))
  {
  }

  /** The older reception_auth_limit_node; `authorize` is the authentication service's verdict, `config` the pair's limit configuration. */
  method LegacyAuthLimitNode(authorize: (string, string, string) -> bool, rateLimits: ReceptionRateLimit.RateLimitService,
                             req: ReceptionRequest, config: Option<ReceptionRateLimit.RateLimitConfig>) returns (v: Verdict)
    requires WellFormed(req) && rateLimits.limiter.Valid()
    modifies rateLimits`statusCache, rateLimits.limiter.buckets.Values
    ensures rateLimits.limiter.Valid()
    ensures var appId, endpointId := req.appId.value, req.endpointId.value;
      var r := LegacyAuthLimitSpec(old(rateLimits.statusCache), old(rateLimits.limiter.States()),
                                   authorize(appId, endpointId, ClientIp(req)), appId, endpointId, config);
      rateLimits.statusCache == r.0.cache && rateLimits.limiter.States() == r.0.buckets && v == r.1
  {
    var appId, endpointId := req.appId.value, req.endpointId.value;
    if !authorize(appId, endpointId, ClientIp(req)) {
      return Fail(Unauthorized);
    }
    var limited := rateLimits.IsRateLimited(appId, endpointId, config);
    if limited {
      return Fail(RateLimited);
    }
    return Pass;
  }

  // ---------------------------------------------------------------- the chain up to the default node

  /** basic → auth/limit → format/size: the admitted lists, or the first stage's refusal or exception, and the gateway state after. */
  function AdmissionSpec(req: ReceptionRequest, findEndpoint: string -> Option<EndpointState>, g: GatewayState,
                         findByAppId: string -> Option<AppRecord>, now: Instant): (Admission, GatewayState)
  {
    match BasicCheck(req, findEndpoint)
    case Err(m) => (Refused(m), g)
    case Ok(e) =>
      var auth := AuthLimitSpec(g, req.appId.value, req.endpointId.value, ClientIp(req), findByAppId, now);
      match auth.1
      case Raise(m) => (Raised(m), auth.0)
      case Fail(m) => (Refused(m), auth.0)
      case Pass =>
        match FormatSizeCheck(e, req.rawLogs.value)
        case Err(m) => (Refused(m), auth.0)
        case Ok(a) => (Passed(a), auth.0)
  }

  /** A request the basic node refuses fails with its message and leaves the gateway untouched. */
  lemma AdmissionBasicFirst(req: ReceptionRequest, findEndpoint: string -> Option<EndpointState>, g: GatewayState,
                            findByAppId: string -> Option<AppRecord>, now: Instant)
    ensures !WellFormed(req) ==> AdmissionSpec(req, findEndpoint, g, findByAppId, now) == (Refused(ParamsMissing), g)
    ensures WellFormed(req) && findEndpoint(req.endpointId.value).None? ==>
              AdmissionSpec(req, findEndpoint, g, findByAppId, now) == (Refused(EndpointNotFound), g)
    ensures (WellFormed(req) && findEndpoint(req.endpointId.value).Some?
             && findEndpoint(req.endpointId.value).value.status != EndpointActive) ==>
              AdmissionSpec(req, findEndpoint, g, findByAppId, now) == (Refused(EndpointNotActive), g)
  {
  }

  /**
   * The check nodes raise only for an application id that fails the AppId pattern, and always with
   * its message; such an id is never admitted, and, when no context is remembered for it, it
   * raises at an active endpoint without changing the gateway.
   */
  lemma MalformedIdRaises(req: ReceptionRequest, findEndpoint: string -> Option<EndpointState>, g: GatewayState,
                          findByAppId: string -> Option<AppRecord>, now: Instant)
    ensures var r := AdmissionSpec(req, findEndpoint, g, findByAppId, now).0;
      r.Raised? ==> r.message == AppIds.InvalidAppIdMessage && req.appId.Some? && !AppIds.ValidAppId(req.appId.value)
    ensures req.appId.Some? && !AppIds.ValidAppId(req.appId.value) ==> !AdmissionSpec(req, findEndpoint, g, findByAppId, now).0.Passed?
    ensures (BasicCheck(req, findEndpoint).Ok? && !AppIds.ValidAppId(req.appId.value) && req.appId.value !in g.contexts) ==>
              AdmissionSpec(req, findEndpoint, g, findByAppId, now) == (Raised(AppIds.InvalidAppIdMessage), g)
  {
    if BasicCheck(req, findEndpoint).Ok? {
      AuthLimitOrder(g, req.appId.value, req.endpointId.value, ClientIp(req), findByAppId, now);
      AuthGateways.ResolveIsStable(g.contexts, req.appId.value, findByAppId, now, now);
    }
  }

  /**
   * A request is admitted exactly when the endpoint is active, the auth/limit node passes and some
   * log passes; the admitted lists are then the partition of all the request's logs, and no
   * rejected log is among the valid ones.
   */
  lemma AdmissionMeaning(req: ReceptionRequest, findEndpoint: string -> Option<EndpointState>, g: GatewayState,
                         findByAppId: string -> Option<AppRecord>, now: Instant)
    ensures var r := AdmissionSpec(req, findEndpoint, g, findByAppId, now).0;
      r.Passed? <==>
        && BasicCheck(req, findEndpoint).Ok?
        && AuthLimitSpec(g, req.appId.value, req.endpointId.value, ClientIp(req), findByAppId, now).1 == Pass
        && Accepted(BasicCheck(req, findEndpoint).value, req.rawLogs.value) != []
    ensures var r := AdmissionSpec(req, findEndpoint, g, findByAppId, now).0;
      r.Passed? ==>
        && Some(r.admitted.endpoint) == findEndpoint(req.endpointId.value) && r.admitted.endpoint.status == EndpointActive
        && r.admitted.valid != []
        && multiset(r.admitted.valid) + multiset(r.admitted.invalid) == multiset(req.rawLogs.value)
        && (forall x :: x in r.admitted.valid ==> Acceptable(r.admitted.endpoint, x))
        && (forall x :: x in r.admitted.invalid ==> x !in r.admitted.valid)
  {
    var b := BasicCheck(req, findEndpoint);
    if b.Ok? {
      PartitionMembers(b.value, req.rawLogs.value);
      PartitionCounts(b.value, req.rawLogs.value);
    }
  }

  /** The dynamic context the nodes share: the endpoint found by the basic node and the lists the format node fills. */
  class ReceptionContext {
    var receiverEndpoint: Option<EndpointState>
    var validLogs: Option<seq<RawLog>>
    var invalidLogs: Option<seq<RawLog>>

    constructor ()
      ensures receiverEndpoint.None? && validLogs.None? && invalidLogs.None?
    {
      receiverEndpoint, validLogs, invalidLogs := None, None, None;
    }
  }

  /** reception_format_size_node: partition the logs, fail when none is valid, else record both lists. */
  method FormatSizeNode(rawLogs: seq<RawLog>, ctx: ReceptionContext) returns (r: Result<Admitted, string>)
    requires ctx.receiverEndpoint.Some?
    modifies ctx`validLogs, ctx`invalidLogs
    ensures r == FormatSizeCheck(ctx.receiverEndpoint.value, rawLogs)
    ensures r.Ok? ==> ctx.validLogs == Some(r.value.valid) && ctx.invalidLogs == Some(r.value.invalid)
    ensures r.Err? ==> ctx.validLogs == old(ctx.validLogs) && ctx.invalidLogs == old(ctx.invalidLogs)
  {
    var e := ctx.receiverEndpoint.value;
    var valid, invalid := Partition(e, rawLogs);
    if valid == [] {
      return Err(NoValidLogs);
    }
    ctx.validLogs, ctx.invalidLogs := Some(valid), Some(invalid);
    r := Ok(Admitted(e, valid, invalid));
  }

  /**
   * The check nodes of the single-log chain, in the assembled order. The basic node records the
   * endpoint before handing on; the format node records both lists only when it passes. The
   * gateway is threaded through as its state.
   */
  method Admit(req: ReceptionRequest, ctx: ReceptionContext, findEndpoint: string -> Option<EndpointState>,
               g: GatewayState, findByAppId: string -> Option<AppRecord>, now: Instant)
    returns (r: Admission, after: GatewayState)
    modifies ctx
    ensures (r, after) == AdmissionSpec(req, findEndpoint, g, findByAppId, now)
    ensures var b := BasicCheck(req, findEndpoint);
      ctx.receiverEndpoint == (if b.Ok? then Some(b.value) else old(ctx.receiverEndpoint))
    ensures r.Passed? ==> ctx.validLogs == Some(r.admitted.valid) && ctx.invalidLogs == Some(r.admitted.invalid)
    ensures !r.Passed? ==> ctx.validLogs == old(ctx.validLogs) && ctx.invalidLogs == old(ctx.invalidLogs)
  {
    var b := BasicCheck(req, findEndpoint);
    if b.Err? {
      return Refused(b.error), g;
    }
    ctx.receiverEndpoint := Some(b.value);
    var auth := AuthLimitSpec(g, req.appId.value, req.endpointId.value, ClientIp(req), findByAppId, now);
    after := auth.0;
    if auth.1.Raise? {
      return Raised(auth.1.message), after;
    }
    if auth.1.Fail? {
      return Refused(auth.1.message), after;
    }
    var f := FormatSizeNode(req.rawLogs.value, ctx);
    if f.Err? {
      return Refused(f.error), after;
    }
    r := Passed(f.value);
  }

  // ---------------------------------------------------------------- default nodes

  /** reception_singleton_default_node: buffer the first log only, count one received log, answer buffered. */
  method SingletonDefaultNode(req: ReceptionRequest, manager: LogBufferManager, metrics: LogProcessingMetrics, now: Instant)
    returns (r: ReceptionResult)
    requires WellFormed(req) && manager.Valid()
    modifies manager`buffers, manager.buffers.Values, metrics`receivedLogs
    ensures manager.Valid()
    ensures r == Buffered() && r.batchId.None?
    ensures manager.Contents()
         == Appended(old(manager.Contents()), req.rawLogs.value[0], req.appId.value, req.endpointId.value, now)
    ensures metrics.ReceivedLogCount(req.appId.value, req.endpointId.value)
         == old(metrics.ReceivedLogCount(req.appId.value, req.endpointId.value)) + 1
    ensures var k := MetricKey(req.appId.value, req.endpointId.value);
      metrics.receivedLogs == old(metrics.receivedLogs)[k := CountOf(old(metrics.receivedLogs), k) + 1]
  {
    var appId, endpointId := req.appId.value, req.endpointId.value;
    var flushed := manager.AddLog(req.rawLogs.value[0], appId, endpointId, now);
    metrics.RecordLogReceived(appId, endpointId, 1);
    r := Buffered();
  }

  /**
   * The single-log chain as assembled: a refused request fails with the first failing node's
   * message, and an exception (Err) leaves the chain; neither reaches the buffer nor the metrics.
   * An admitted request buffers its first log.
   */
  method ReceiveSingleton(req: ReceptionRequest, ctx: ReceptionContext, findEndpoint: string -> Option<EndpointState>,
                          g: GatewayState, findByAppId: string -> Option<AppRecord>,
                          manager: LogBufferManager, metrics: LogProcessingMetrics, now: Instant)
    returns (r: Result<ReceptionResult, string>, after: GatewayState)
    requires manager.Valid()
    modifies ctx, manager`buffers, manager.buffers.Values, metrics`receivedLogs
    ensures manager.Valid()
    ensures var spec := AdmissionSpec(req, findEndpoint, g, findByAppId, now);
      && after == spec.1
      && (spec.0.Raised? ==> r == Err(spec.0.message))
      && (spec.0.Refused? ==> r == Ok(Failure(spec.0.message)))
      && (!spec.0.Passed? ==> manager.Contents() == old(manager.Contents()) && metrics.receivedLogs == old(metrics.receivedLogs))
      && (spec.0.Passed? ==> r == Ok(Buffered())
                             && manager.Contents()
                                == Appended(old(manager.Contents()), req.rawLogs.value[0], req.appId.value, req.endpointId.value, now)
                             && metrics.ReceivedLogCount(req.appId.value, req.endpointId.value)
                                == old(metrics.ReceivedLogCount(req.appId.value, req.endpointId.value)) + 1
                             && metrics.receivedLogs
                                == old(metrics.receivedLogs)[MetricKey(req.appId.value, req.endpointId.value)
                                     := CountOf(old(metrics.receivedLogs), MetricKey(req.appId.value, req.endpointId.value)) + 1])
  {
    ghost var buffered := manager.Contents();
    var admitted;
    admitted, after := Admit(req, ctx, findEndpoint, g, findByAppId, now);
    assert manager.Contents() == buffered;
    if admitted.Raised? {
      return Err(admitted.message), after;
    }
    if admitted.Refused? {
      return Ok(Failure(admitted.message)), after;
    }
    assert WellFormed(req);
    var result := SingletonDefaultNode(req, manager, metrics, now);
    r := Ok(result);
  }

  /**
   * reception_batch_default_node: save the context's valid logs as one PENDING batch under the
   * given id, count one batch and its logs, and answer success with that id. The invalid logs are
   * not stored.
   */
  method BatchDefaultNode(appId: string, endpointId: string, ctx: ReceptionContext, repository: BatchRepository,
                          metrics: LogProcessingMetrics, batchId: string, now: Instant) returns (r: ReceptionResult)
    requires ctx.validLogs.Some?
    modifies repository, metrics`receivedBatches, metrics`receivedLogs
    ensures var valid := ctx.validLogs.value;
      repository.batches == old(repository.batches)[batchId := NewBatch(batchId, appId, endpointId, valid, PENDING, now)]
    ensures metrics.ReceivedBatchCount(appId, endpointId) == old(metrics.ReceivedBatchCount(appId, endpointId)) + 1
    ensures metrics.ReceivedLogCount(appId, endpointId)
         == old(metrics.ReceivedLogCount(appId, endpointId)) + |ctx.validLogs.value|
    ensures var k := MetricKey(appId, endpointId);
      metrics.receivedBatches == old(metrics.receivedBatches)[k := CountOf(old(metrics.receivedBatches), k) + 1]
    ensures var k := MetricKey(appId, endpointId);
      metrics.receivedLogs == old(metrics.receivedLogs)[k := CountOf(old(metrics.receivedLogs), k) + |ctx.validLogs.value|]
    ensures r == Success(batchId) && HasBatchId(r)
  {
    var valid := ctx.validLogs.value;
    var batch := NewBatch(batchId, appId, endpointId, valid, PENDING, now);
    repository.Save(batch);
    metrics.RecordBatchReceived(appId, endpointId);
    metrics.RecordLogReceived(appId, endpointId, |valid|);
    r := Success(batchId);
  }

  /**
   * Storing an admitted request's batch keeps exactly its valid logs, PENDING, under the id the
   * answer carries: no rejected log is stored.
   */
  lemma StoredBatchHoldsValidLogs(a: Admitted, batchId: string, appId: string, endpointId: string, now: Instant,
                                  s: Store)
    requires forall x :: x in a.invalid ==> x !in a.valid
    ensures var stored := s[batchId := NewBatch(batchId, appId, endpointId, a.valid, PENDING, now)][batchId];
      stored.logs == a.valid && stored.status == PENDING && stored.id == Success(batchId).batchId.value
      && forall x :: x in a.invalid ==> x !in stored.logs
  {
  }

  // ---------------------------------------------------------------- assembly

  /** A node's link to its successor, as AbstractLogicChainNode holds it. */
  class ChainNode {
    const name: string
    var next: ChainNode?

    constructor (name: string)
      ensures this.name == name && next == null
    {
      this.name := name;
      next := null;
    }

    /** appendNext: link one successor and return it, so calls chain. */
    method AppendNext(n: ChainNode?) returns (r: ChainNode?)
      modifies this`next
      ensures next == n && r == n
    {
      next := n;
      r := n;
    }
  }

  /**
   * The single-log assembler: the head is the basic node, followed by auth/limit, format/size and
   * the single-log default node, each linked to exactly one successor; the last node's link is untouched.
   */
  method AssembleSingleton(ruleNodeMap: map<string, ChainNode>) returns (head: ChainNode)
    requires BasicNodeName in ruleNodeMap && AuthLimitNodeName in ruleNodeMap
    requires FormatSizeNodeName in ruleNodeMap && SingletonDefaultNodeName in ruleNodeMap
    requires var nodes := [ruleNodeMap[BasicNodeName], ruleNodeMap[AuthLimitNodeName],
                           ruleNodeMap[FormatSizeNodeName], ruleNodeMap[SingletonDefaultNodeName]];
      forall i, j :: 0 <= i < j < 4 ==> nodes[i] != nodes[j]
    modifies ruleNodeMap[BasicNodeName], ruleNodeMap[AuthLimitNodeName], ruleNodeMap[FormatSizeNodeName]
    ensures head == ruleNodeMap[BasicNodeName]
    ensures head.next == ruleNodeMap[AuthLimitNodeName]
    ensures ruleNodeMap[AuthLimitNodeName].next == ruleNodeMap[FormatSizeNodeName]
    ensures ruleNodeMap[FormatSizeNodeName].next == ruleNodeMap[SingletonDefaultNodeName]
    ensures ruleNodeMap[SingletonDefaultNodeName].next == old(ruleNodeMap[SingletonDefaultNodeName].next)
  {
    var basic, auth := ruleNodeMap[BasicNodeName], ruleNodeMap[AuthLimitNodeName];
    var format, last := ruleNodeMap[FormatSizeNodeName], ruleNodeMap[SingletonDefaultNodeName];
    assert basic != auth && basic != format && auth != format && last != basic && last != auth && last != format by {
      var nodes := [basic, auth, format, last];
      assert nodes[0] != nodes[1] && nodes[0] != nodes[2] && nodes[1] != nodes[2];
      assert nodes[0] != nodes[3] && nodes[1] != nodes[3] && nodes[2] != nodes[3];
    }
    head := basic;
    var n1 := head.AppendNext(auth);
    var n2 := n1.AppendNext(format);
    var n3 := n2.AppendNext(last);
  }
}
