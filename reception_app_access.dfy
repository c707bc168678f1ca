// The reception domain's AppAccess aggregate: validated rate/burst limits, status and allow-lists.
module ReceptionAppAccess {
  import opened Wrappers
  import opened Domain
  import JavaInt
  import Ipv4

  /** The state of one aggregate, as its getters expose it. */
  datatype AppState = AppState(
    appId: string,
    appName: string,
    accessKey: string,
    secretKey: string,
    allowedEndpoints: set<string>,
    ipWhitelist: set<string>,
    rateLimit: int,
    burstCapacity: int,
    status: AppAccessStatus,
    expiryTime: Option<Instant>,
    createdTime: Instant,
    lastAccessTime: Option<Instant>)

  /** The invariant the validators aim at: a positive rate and a burst no smaller than it. */
  predicate LimitsValid(a: AppState)
  {
    a.rateLimit > 0 && a.burstCapacity >= a.rateLimit
  }

  /** isExpired: a null expiry never expires; otherwise expired strictly after the instant. */
  predicate IsExpired(a: AppState, now: Instant)
  {
    a.expiryTime.Some? && now > a.expiryTime.value
  }

  predicate IsEndpointAllowed(a: AppState, endpointId: string)
  {
    a.allowedEndpoints == {} || endpointId in a.allowedEndpoints
  }

  predicate IsIpWhitelisted(a: AppState, ip: string)
  {
    a.ipWhitelist == {} || ip in a.ipWhitelist
  }

  /** An application without an expiry time never expires, whatever the clock says. */
  lemma NoExpiryNeverExpires(a: AppState, now: Instant)
    requires a.expiryTime.None?
    ensures !IsExpired(a, now)
  {
  }

  /** The burst the one-argument forms derive from a rate: rate * 2 in 32-bit int arithmetic. */
  function DoubledBurst(rate: int): (b: int)
    ensures 0 < rate < JavaInt.Two31 / 2 ==> b == 2 * rate && b >= rate
  {
    JavaInt.WrapInt32(rate * 2)
  }

  /** A rate of 2^30 or more passes validation but its doubled burst wraps below the rate. */
  lemma DoubledBurstOverflow()
    ensures DoubledBurst(JavaInt.Two31 / 2) < JavaInt.Two31 / 2
  {
  }

  /** updateRateLimit(rate, burst) as written: the burst is compared with the rate held before the update. */
  predicate AcceptsRateUpdate(heldRate: int, rate: int, burst: int)
  {
    rate > 0 && burst >= heldRate
  }

  /** The comparison evidently intended: the burst against the new rate. */
  predicate AcceptsRateUpdateFixed(rate: int, burst: int)
  {
    rate > 0 && burst >= rate
  }

  /** As written, raising the rate from 10 to 50 with burst 20 is accepted and leaves burst < rate. */
  lemma RateUpdateBreaksLimits()
    ensures AcceptsRateUpdate(10, 50, 20) && !AcceptsRateUpdateFixed(50, 20)
  {
  }

  /** With the fixed check, every accepted update keeps the limits valid, whatever was held before. */
  lemma FixedRateUpdateKeepsLimits(a: AppState, rate: int, burst: int)
    requires AcceptsRateUpdateFixed(rate, burst)
    ensures LimitsValid(a.(rateLimit := rate, burstCapacity := burst))
  {
  }

  class AppAccess {
    const appId: string
    var appName: string
    var accessKey: string
    var secretKey: string
    var allowedEndpoints: set<string>
    var ipWhitelist: set<string>
    var rateLimit: int
    var burstCapacity: int
    var status: AppAccessStatus
    var expiryTime: Option<Instant>
    const createdTime: Instant
    var lastAccessTime: Option<Instant>

    function State(): AppState
      reads this
    {
      AppState(appId, appName, accessKey, secretKey, allowedEndpoints, ipWhitelist, rateLimit,
               burstCapacity, status, expiryTime, createdTime, lastAccessTime)
    }

    constructor Init(appId: string, appName: string, accessKey: string, secretKey: string,
                     rateLimit: int, burstCapacity: int, now: Instant)
      ensures State() == AppState(appId, appName, accessKey, secretKey, {}, {}, rateLimit, burstCapacity,
                                  INACTIVE, None, now, None)
    {
      this.appId := appId;
      this.appName := appName;
      this.accessKey := accessKey;
      this.secretKey := secretKey;
      this.rateLimit := rateLimit;
      this.burstCapacity := burstCapacity;
      this.status := INACTIVE;
      this.allowedEndpoints := {};
      this.ipWhitelist := {};
      this.createdTime := now;
      this.expiryTime := None;
      this.lastAccessTime := None;
    }

    /**
     * The short constructor: rejects a non-positive rate (AppException, None); otherwise an
     * INACTIVE app with empty lists and burst = rate * 2.
     */
    static method NewShort(appId: string, appName: string, accessKey: string, secretKey: string,
                           rateLimit: int, now: Instant) returns (r: Option<AppAccess>)
      requires JavaInt.InInt32(rateLimit)
      ensures r.Some? <==> rateLimit > 0
      ensures r.Some? ==> fresh(r.value) && r.value.State() == AppState(
                appId, appName, accessKey, secretKey, {}, {}, rateLimit, DoubledBurst(rateLimit),
                INACTIVE, None, now, None)
      ensures r.Some? && rateLimit < JavaInt.Two31 / 2 ==> LimitsValid(r.value.State())
    {
      if rateLimit <= 0 {
        return None;
      }
      var app := new AppAccess.Init(appId, appName, accessKey, secretKey, rateLimit, DoubledBurst(rateLimit), now);
      return Some(app);
    }

    /** The full constructor: rejects a non-positive rate and a burst below the rate. */
    static method NewFull(appId: string, appName: string, accessKey: string, secretKey: string,
                          rateLimit: int, burstCapacity: int, now: Instant) returns (r: Option<AppAccess>)
      ensures r.Some? <==> rateLimit > 0 && burstCapacity >= rateLimit
      ensures r.Some? ==> fresh(r.value) && LimitsValid(r.value.State()) && r.value.State() == AppState(
                appId, appName, accessKey, secretKey, {}, {}, rateLimit, burstCapacity,
                INACTIVE, None, now, None)
    {
      if rateLimit <= 0 || burstCapacity < rateLimit {
        return None;
      }
      var app := new AppAccess.Init(appId, appName, accessKey, secretKey, rateLimit, burstCapacity, now);
      return Some(app);
    }

    /** activate: refused (AppException) for a BLOCKED app, which stays BLOCKED. */
    method Activate() returns (ok: bool)
      modifies this`status
      ensures ok <==> old(status) != BLOCKED
      ensures status == if ok then ACTIVE else BLOCKED
    {
      if status == BLOCKED {
        return false;
      }
      status := ACTIVE;
      return true;
    }

    /** deactivate: refused for a BLOCKED app, which stays BLOCKED. */
    method Deactivate() returns (ok: bool)
      modifies this`status
      ensures ok <==> old(status) != BLOCKED
      ensures status == if ok then INACTIVE else BLOCKED
    {
      if status == BLOCKED {
        return false;
      }
      status := INACTIVE;
      return true;
    }

    method Block()
      modifies this`status
      ensures status == BLOCKED
    {
      status := BLOCKED;
    }

    method UpdateAccessKey(key: string, secret: string)
      modifies this`accessKey, this`secretKey
      ensures accessKey == key && secretKey == secret
    {
      accessKey := key;
      secretKey := secret;
    }

    /** setExpiryTime: an instant strictly before now is refused; null (no expiry) is accepted. */
    method SetExpiryTime(t: Option<Instant>, now: Instant) returns (ok: bool)
      modifies this`expiryTime
      ensures ok <==> t.None? || t.value >= now
      ensures expiryTime == if ok then t else old(expiryTime)
    {
      if t.Some? && t.value < now {
        return false;
      }
      expiryTime := t;
      return true;
    }

    method AllowEndpoint(endpointId: string)
      modifies this`allowedEndpoints
      ensures allowedEndpoints == old(allowedEndpoints) + {endpointId}
    {
      allowedEndpoints := allowedEndpoints + {endpointId};
    }

    method DisallowEndpoint(endpointId: string)
      modifies this`allowedEndpoints
      ensures allowedEndpoints == old(allowedEndpoints) - {endpointId}
    {
      allowedEndpoints := allowedEndpoints - {endpointId};
    }

    /** addIpToWhitelist: only a dotted-quad IPv4 address (octets 0 to 255) is accepted. */
    method AddIpToWhitelist(ip: Option<string>) returns (ok: bool)
      modifies this`ipWhitelist
      ensures ok <==> ip.Some? && Ipv4.ValidIpv4(ip.value)
      ensures ipWhitelist == if ok then old(ipWhitelist) + {ip.value} else old(ipWhitelist)
    {
      if ip.None? || !Ipv4.ValidIpv4(ip.value) {
        return false;
      }
      ipWhitelist := ipWhitelist + {ip.value};
      return true;
    }

    method RemoveIpFromWhitelist(ip: string)
      modifies this`ipWhitelist
      ensures ipWhitelist == old(ipWhitelist) - {ip}
    {
      ipWhitelist := ipWhitelist - {ip};
    }

    /** updateRateLimit(rate): a positive rate is stored with burst = rate * 2. */
    method UpdateRateLimit(rate: int) returns (ok: bool)
      requires JavaInt.InInt32(rate)
      modifies this`rateLimit, this`burstCapacity
      ensures ok <==> rate > 0
      ensures ok ==> rateLimit == rate && burstCapacity == DoubledBurst(rate)
      ensures !ok ==> rateLimit == old(rateLimit) && burstCapacity == old(burstCapacity)
      ensures ok && rate < JavaInt.Two31 / 2 ==> LimitsValid(State())
    {
      if rate <= 0 {
        return false;
      }
      rateLimit := rate;
      burstCapacity := DoubledBurst(rate);
      return true;
    }

    /**
     * updateRateLimit(rate, burst) as written: the burst is validated against the rate held
     * before the update, so the limits can end up invalid.
     */
    method UpdateRateLimitAndBurst(rate: int, burst: int) returns (ok: bool)
      modifies this`rateLimit, this`burstCapacity
      ensures ok <==> AcceptsRateUpdate(old(rateLimit), rate, burst)
      ensures rateLimit == (if ok then rate else old(rateLimit))
      ensures burstCapacity == (if ok then burst else old(burstCapacity))
    {
      if rate <= 0 || burst < rateLimit {
        return false;
      }
      rateLimit := rate;
      burstCapacity := burst;
      return true;
    }

    /** The corrected update: the burst is validated against the new rate, so the limits stay valid. */
    method UpdateRateLimitAndBurstFixed(rate: int, burst: int) returns (ok: bool)
      modifies this`rateLimit, this`burstCapacity
      ensures ok <==> AcceptsRateUpdateFixed(rate, burst)
      ensures rateLimit == (if ok then rate else old(rateLimit))
      ensures burstCapacity == (if ok then burst else old(burstCapacity))
      ensures old(LimitsValid(State())) ==> LimitsValid(State())
    {
      if !AcceptsRateUpdateFixed(rate, burst) {
        return false;
      }
      FixedRateUpdateKeepsLimits(State(), rate, burst);
      rateLimit := rate;
      burstCapacity := burst;
      return true;
    }

    /** updateBurstCapacity: a burst below the current rate is refused. */
    method UpdateBurstCapacity(burst: int) returns (ok: bool)
      modifies this`burstCapacity
      ensures ok <==> burst >= rateLimit
      ensures burstCapacity == if ok then burst else old(burstCapacity)
      ensures old(LimitsValid(State())) ==> LimitsValid(State())
    {
      if burst < rateLimit {
        return false;
      }
      burstCapacity := burst;
      return true;
    }

    method RecordAccess(now: Instant)
      modifies this`lastAccessTime
      ensures lastAccessTime == Some(now)
    {
      lastAccessTime := Some(now);
    }
  }
}
