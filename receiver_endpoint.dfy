// The ReceiverEndpoint aggregate: one log receiving endpoint and its limits.
module ReceiverEndpoints {
  import opened Wrappers
  import opened Domain

  /** Largest payload an endpoint may declare: 100 MiB. */
  const MaxPayloadLimit: int := 100 * 1024 * 1024
  const DefaultMaxBatchCount: int := 1000
  const DefaultBufferingTimeMs: int := 1000
  const DefaultBufferingSize: int := 100

  datatype EndpointState = EndpointState(
    id: string,
    name: string,
    kind: EndpointType,
    protocol: string,
    path: Option<string>,
    port: Option<int>,
    format: LogFormat,
    maxPayloadSize: int,
    compressionEnabled: bool,
    compressionAlgorithm: Option<string>,
    status: EndpointStatus,
    allowedAppIds: set<string>,
    maxBatchCount: int,
    preprocessStrategy: Option<string>,
    bufferingEnabled: bool,
    bufferingTimeMs: int,
    bufferingSize: int)

  /**
   * validateEndpoint: the payload limit lies in (0, 100 MiB]; an HTTP endpoint has a non-empty
   * path; a TCP or UDP endpoint has a port.
   */
  predicate ValidEndpoint(kind: EndpointType, path: Option<string>, port: Option<int>, maxPayloadSize: int)
  {
    && 0 < maxPayloadSize <= MaxPayloadLimit
    && (kind == HTTP ==> path.Some? && path.value != "")
    && ((kind == TCP || kind == UDP) ==> port.Some?)
  }

  predicate StateValid(e: EndpointState)
  {
    ValidEndpoint(e.kind, e.path, e.port, e.maxPayloadSize)
  }

  /** isAppAllowed: an empty allow-list admits every application. */
  predicate IsAppAllowed(e: EndpointState, appId: string)
  {
    e.allowedAppIds == {} || appId in e.allowedAppIds
  }

  /** Narrowing an allow-list never admits an application it did not admit before, unless it empties it. */
  lemma DisallowNarrows(e: EndpointState, removed: string, appId: string)
    requires e.allowedAppIds - {removed} != {}
    ensures IsAppAllowed(e.(allowedAppIds := e.allowedAppIds - {removed}), appId) ==> IsAppAllowed(e, appId)
    ensures !IsAppAllowed(e.(allowedAppIds := e.allowedAppIds - {removed}), removed)
  {
  }

  /** Removing the last allowed application reopens the endpoint to every application. */
  lemma DisallowLastReopens(e: EndpointState, removed: string, appId: string)
    requires e.allowedAppIds == {removed}
    ensures IsAppAllowed(e.(allowedAppIds := {}), appId)
  {
  }

  class ReceiverEndpoint {
    const id: string
    var name: string
    var kind: EndpointType
    var protocol: string
    var path: Option<string>
    var port: Option<int>
    var format: LogFormat
    var maxPayloadSize: int
    var compressionEnabled: bool
    var compressionAlgorithm: Option<string>
    var status: EndpointStatus
    var allowedAppIds: set<string>
    var maxBatchCount: int
    var preprocessStrategy: Option<string>
    var bufferingEnabled: bool
    var bufferingTimeMs: int
    var bufferingSize: int

    function State(): EndpointState
      reads this
    {
      EndpointState(id, name, kind, protocol, path, port, format, maxPayloadSize, compressionEnabled,
                    compressionAlgorithm, status, allowedAppIds, maxBatchCount, preprocessStrategy,
                    bufferingEnabled, bufferingTimeMs, bufferingSize)
    }

    constructor Init(id: string, name: string, kind: EndpointType, protocol: string, path: Option<string>,
                     port: Option<int>, format: LogFormat, maxPayloadSize: int)
      ensures State() == EndpointState(id, name, kind, protocol, path, port, format, maxPayloadSize, false, None,
                                       EndpointInactive, {}, DefaultMaxBatchCount, None, false,
                                       DefaultBufferingTimeMs, DefaultBufferingSize)
    {
      this.id := id;
      this.name := name;
      this.kind := kind;
      this.protocol := protocol;
      this.path := path;
      this.port := port;
      this.format := format;
      this.maxPayloadSize := maxPayloadSize;
      this.compressionEnabled := false;
      this.compressionAlgorithm := None;
      this.status := EndpointInactive;
      this.allowedAppIds := {};
      this.maxBatchCount := DefaultMaxBatchCount;
      this.preprocessStrategy := None;
      this.bufferingEnabled := false;
      this.bufferingTimeMs := DefaultBufferingTimeMs;
      this.bufferingSize := DefaultBufferingSize;
    }

    /** The constructor: an INACTIVE endpoint with the defaults, or None when validation throws. */
    static method New(id: string, name: string, kind: EndpointType, protocol: string, path: Option<string>,
                      port: Option<int>, format: LogFormat, maxPayloadSize: int) returns (r: Option<ReceiverEndpoint>)
      ensures r.Some? <==> ValidEndpoint(kind, path, port, maxPayloadSize)
      ensures r.Some? ==> fresh(r.value) && StateValid(r.value.State()) && r.value.State() == EndpointState(
                id, name, kind, protocol, path, port, format, maxPayloadSize, false, None, EndpointInactive, {},
                DefaultMaxBatchCount, None, false, DefaultBufferingTimeMs, DefaultBufferingSize)
    {
      if !ValidEndpoint(kind, path, port, maxPayloadSize) {
        return None;
      }
      var e := new ReceiverEndpoint.Init(id, name, kind, protocol, path, port, format, maxPayloadSize);
      return Some(e);
    }

    method Activate()
      modifies this`status
      ensures status == EndpointActive
    {
      status := EndpointActive;
    }

    method Deactivate()
      modifies this`status
      ensures status == EndpointInactive
    {
      status := EndpointInactive;
    }

    method EnableCompression(algorithm: string)
      modifies this`compressionEnabled, this`compressionAlgorithm
      ensures compressionEnabled && compressionAlgorithm == Some(algorithm)
    {
      compressionEnabled := true;
      compressionAlgorithm := Some(algorithm);
    }

    method DisableCompression()
      modifies this`compressionEnabled, this`compressionAlgorithm
      ensures !compressionEnabled && compressionAlgorithm == None
    {
      compressionEnabled := false;
      compressionAlgorithm := None;
    }

    method AllowApp(appId: string)
      modifies this`allowedAppIds
      ensures allowedAppIds == old(allowedAppIds) + {appId}
      ensures IsAppAllowed(State(), appId)
    {
      allowedAppIds := allowedAppIds + {appId};
    }

    method DisallowApp(appId: string)
      modifies this`allowedAppIds
      ensures allowedAppIds == old(allowedAppIds) - {appId}
    {
      allowedAppIds := allowedAppIds - {appId};
    }

    /**
     * updateConfig: the new values are assigned before validation, so a rejected update
     * (ok false, the AppException) still leaves them in place.
     */
    method UpdateConfig(name: string, path: Option<string>, port: Option<int>, format: LogFormat, maxPayloadSize: int)
      returns (ok: bool)
      modifies this`name, this`path, this`port, this`format, this`maxPayloadSize
      ensures this.name == name && this.path == path && this.port == port && this.format == format
      ensures this.maxPayloadSize == maxPayloadSize
      ensures ok <==> StateValid(State())
    {
      this.name := name;
      this.path := path;
      this.port := port;
      this.format := format;
      this.maxPayloadSize := maxPayloadSize;
      ok := ValidEndpoint(kind, path, port, maxPayloadSize);
    }

    /** setMaxBatchCount: a non-positive count is refused. */
    method SetMaxBatchCount(count: int) returns (ok: bool)
      modifies this`maxBatchCount
      ensures ok <==> count > 0
      ensures maxBatchCount == if ok then count else old(maxBatchCount)
      ensures old(maxBatchCount) > 0 ==> maxBatchCount > 0
    {
      if count <= 0 {
        return false;
      }
      maxBatchCount := count;
      return true;
    }

    method SetPreprocessStrategy(strategy: Option<string>)
      modifies this`preprocessStrategy
      ensures preprocessStrategy == strategy
    {
      preprocessStrategy := strategy;
    }

    /** enableBuffering: a non-positive time or size is refused and nothing changes. */
    method EnableBuffering(timeMs: int, size: int) returns (ok: bool)
      modifies this`bufferingEnabled, this`bufferingTimeMs, this`bufferingSize
      ensures ok <==> timeMs > 0 && size > 0
      ensures ok ==> bufferingEnabled && bufferingTimeMs == timeMs && bufferingSize == size
      ensures !ok ==> bufferingEnabled == old(bufferingEnabled) && bufferingTimeMs == old(bufferingTimeMs)
                      && bufferingSize == old(bufferingSize)
    {
      if timeMs <= 0 || size <= 0 {
        return false;
      }
      bufferingEnabled := true;
      bufferingTimeMs := timeMs;
      bufferingSize := size;
      return true;
    }

    /** disableBuffering keeps the configured time and size for a later enable. */
    method DisableBuffering()
      modifies this`bufferingEnabled
      ensures !bufferingEnabled
    {
      bufferingEnabled := false;
    }
  }
}
