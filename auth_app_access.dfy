// The auth domain's AppAccess entity: an application's credentials, status, lists and limits.
module AuthAppAccess {
  import opened Domain
  import JavaInt

  /** One year, in milliseconds: the default validity of a new application. */
  const DefaultValidityMs: int := 31536000 * 1000

  /** The state of one AppAccess, as its getters expose it. */
  datatype AppRecord = AppRecord(
    id: string,
    appName: string,
    accessKey: string,
    secretKey: string,
    creationTime: Instant,
    expiryTime: Instant,
    status: AppAccessStatus,
    ipWhitelist: set<string>,
    allowedEndpoints: set<string>,
    rateLimit: int,
    burstCapacity: int)

  /** isExpired: strictly after the expiry instant. */
  predicate IsExpired(r: AppRecord, now: Instant)
  {
    now > r.expiryTime
  }

  /** An empty whitelist admits every IP, otherwise membership decides. */
  predicate IsIpWhitelisted(r: AppRecord, ip: string)
  {
    r.ipWhitelist == {} || ip in r.ipWhitelist
  }

  /** An empty endpoint set admits every endpoint, otherwise membership decides. */
  predicate IsEndpointAllowed(r: AppRecord, endpointId: string)
  {
    r.allowedEndpoints == {} || endpointId in r.allowedEndpoints
  }

  /** The application is still valid at its expiry instant and expired one millisecond later. */
  lemma ExpiryBoundary(r: AppRecord)
    ensures !IsExpired(r, r.expiryTime) && IsExpired(r, r.expiryTime + 1)
  {
  }

  class AppAccess {
    const id: string
    var appName: string
    var accessKey: string
    var secretKey: string
    const creationTime: Instant
    var expiryTime: Instant
    var status: AppAccessStatus
    var ipWhitelist: set<string>
    var allowedEndpoints: set<string>
    var rateLimit: int
    var burstCapacity: int

    function Record(): AppRecord
      reads this
    {
      AppRecord(id, appName, accessKey, secretKey, creationTime, expiryTime, status,
                ipWhitelist, allowedEndpoints, rateLimit, burstCapacity)
    }

    /**
     * The short constructor: burst is twice the rate (in 32-bit int arithmetic), the app
     * expires one year after now, starts INACTIVE and has empty lists.
     */
    constructor Short(id: string, appName: string, accessKey: string, secretKey: string, rateLimit: int, now: Instant)
      requires JavaInt.InInt32(rateLimit)
      ensures Record() == AppRecord(id, appName, accessKey, secretKey, now, now + DefaultValidityMs,
                                    INACTIVE, {}, {}, rateLimit, JavaInt.WrapInt32(rateLimit * 2))
      ensures -JavaInt.Two31 / 2 <= rateLimit < JavaInt.Two31 / 2 ==> burstCapacity == 2 * rateLimit
    {
      this.id := id;
      this.appName := appName;
      this.accessKey := accessKey;
      this.secretKey := secretKey;
      this.rateLimit := rateLimit;
      this.burstCapacity := JavaInt.WrapInt32(rateLimit * 2);
      this.creationTime := now;
      this.expiryTime := now + DefaultValidityMs;
      this.status := INACTIVE;
      this.ipWhitelist := {};
      this.allowedEndpoints := {};
    }

    /** The full constructor: no validation, INACTIVE, the given lists copied. */
    constructor Full(id: string, appName: string, accessKey: string, secretKey: string, rateLimit: int,
                     burstCapacity: int, expiryTime: Instant, ipWhitelist: set<string>,
                     allowedEndpoints: set<string>, now: Instant)
      ensures Record() == AppRecord(id, appName, accessKey, secretKey, now, expiryTime, INACTIVE,
                                    ipWhitelist, allowedEndpoints, rateLimit, burstCapacity)
    {
      this.id := id;
      this.appName := appName;
      this.accessKey := accessKey;
      this.secretKey := secretKey;
      this.rateLimit := rateLimit;
      this.burstCapacity := burstCapacity;
      this.creationTime := now;
      this.expiryTime := expiryTime;
      this.status := INACTIVE;
      this.ipWhitelist := ipWhitelist;
      this.allowedEndpoints := allowedEndpoints;
    }

    /** activate: refused (IllegalStateException, ok == false) for a BLOCKED app, which stays BLOCKED. */
    method Activate() returns (ok: bool)
      modifies this`status
      ensures ok <==> old(status) != BLOCKED
      ensures status == if ok then ACTIVE else BLOCKED
    {
      if status == BLOCKED {
        return false;
      }
      status := ACTIVE;
      return true;
    }

    /** deactivate: refused for a BLOCKED app, which stays BLOCKED. */
    method Deactivate() returns (ok: bool)
      modifies this`status
      ensures ok <==> old(status) != BLOCKED
      ensures status == if ok then INACTIVE else BLOCKED
    {
      if status == BLOCKED {
        return false;
      }
      status := INACTIVE;
      return true;
    }

    /** block always succeeds; afterwards neither activate nor deactivate can leave BLOCKED. */
    method Block()
      modifies this`status
      ensures status == BLOCKED
    {
      status := BLOCKED;
    }

    method UpdateAppName(name: string)
      modifies this`appName
      ensures appName == name
    {
      appName := name;
    }

    method UpdateSecretKey(secret: string)
      modifies this`secretKey
      ensures secretKey == secret
    {
      secretKey := secret;
    }

    method UpdateExpiryTime(t: Instant)
      modifies this`expiryTime
      ensures expiryTime == t
    {
      expiryTime := t;
    }

    /** updateRateLimit on this entity is a plain assignment: the burst is left as it was. */
    method UpdateRateLimit(r: int)
      modifies this`rateLimit
      ensures rateLimit == r
    {
      rateLimit := r;
    }

    method UpdateBurstCapacity(b: int)
      modifies this`burstCapacity
      ensures burstCapacity == b
    {
      burstCapacity := b;
    }

    method AddIpToWhitelist(ip: string)
      modifies this`ipWhitelist
      ensures ipWhitelist == old(ipWhitelist) + {ip}
    {
      ipWhitelist := ipWhitelist + {ip};
    }

    method RemoveIpFromWhitelist(ip: string)
      modifies this`ipWhitelist
      ensures ipWhitelist == old(ipWhitelist) - {ip}
    {
      ipWhitelist := ipWhitelist - {ip};
    }

    /** Clearing the whitelist makes the app reachable from every IP again. */
    method ClearIpWhitelist()
      modifies this`ipWhitelist
      ensures ipWhitelist == {}
      ensures forall ip :: IsIpWhitelisted(Record(), ip)
    {
      ipWhitelist := {};
    }

    method AddAllowedEndpoint(endpointId: string)
      modifies this`allowedEndpoints
      ensures allowedEndpoints == old(allowedEndpoints) + {endpointId}
    {
      allowedEndpoints := allowedEndpoints + {endpointId};
    }

    method RemoveAllowedEndpoint(endpointId: string)
      modifies this`allowedEndpoints
      ensures allowedEndpoints == old(allowedEndpoints) - {endpointId}
    {
      allowedEndpoints := allowedEndpoints - {endpointId};
    }

    /** Clearing the endpoint set makes every endpoint allowed again. */
    method ClearAllowedEndpoints()
      modifies this`allowedEndpoints
      ensures allowedEndpoints == {}
      ensures forall e :: IsEndpointAllowed(Record(), e)
    {
      allowedEndpoints := {};
    }
  }
}
