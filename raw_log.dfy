// RawLog: the immutable log record a client submits.
module RawLogs {
  import opened Domain

  /** content, sourceId, format, timestamp and a metadata map held by value (the Java copy). */
  datatype RawLog = RawLog(
    content: string,
    sourceId: string,
    format: LogFormat,
    timestamp: Instant,
    metadata: map<string, string>)

  /** A new log equal to `log` except that metadata[key] is value. */
  function WithAddedMetadata(log: RawLog, key: string, value: string): (r: RawLog)
    ensures key in r.metadata && r.metadata[key] == value
    ensures r.metadata.Keys == log.metadata.Keys + {key}
    ensures forall k :: k in log.metadata && k != key ==> r.metadata[k] == log.metadata[k]
    ensures r.content == log.content && r.sourceId == log.sourceId
    ensures r.format == log.format && r.timestamp == log.timestamp
  {
    log.(metadata := log.metadata[key := value])
  }

  /** Metadata lookup with a default, as Map.getOrDefault. */
  function MetadataOrDefault(log: RawLog, key: string, default: string): string
  {
    if key in log.metadata then log.metadata[key] else default
  }

  /** Adding the same entry twice is the same as adding it once; the last write of a key wins. */
  lemma WithAddedMetadataLastWins(log: RawLog, key: string, v1: string, v2: string)
    ensures WithAddedMetadata(WithAddedMetadata(log, key, v1), key, v2) == WithAddedMetadata(log, key, v2)
    ensures MetadataOrDefault(WithAddedMetadata(log, key, v2), key, "") == v2
  {
    assert WithAddedMetadata(WithAddedMetadata(log, key, v1), key, v2).metadata
        == WithAddedMetadata(log, key, v2).metadata;
  }

  /** RawLog.equals: two logs are equal exactly when all five fields are. */
  predicate SameLog(a: RawLog, b: RawLog)
  {
    a.content == b.content && a.sourceId == b.sourceId && a.format == b.format
    && a.timestamp == b.timestamp && a.metadata == b.metadata
  }

  lemma SameLogIsEquality(a: RawLog, b: RawLog)
    ensures SameLog(a, b) <==> a == b
  {
  }
}
