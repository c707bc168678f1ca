// EndpointConfig: the per-endpoint limits the reception side compares sizes and counts against.
module EndpointConfigs {
  import opened Domain

  datatype EndpointConfig = EndpointConfig(
    endpointId: string,
    name: string,
    format: LogFormat,
    status: EndpointStatus,
    maxPayloadSize: int,
    maxBatchSize: int,
    maxBatchCount: int)

  predicate IsLogSizeExceeded(c: EndpointConfig, logSize: int)
  {
    logSize > c.maxPayloadSize
  }

  predicate IsBatchSizeExceeded(c: EndpointConfig, batchSize: int)
  {
    batchSize > c.maxBatchSize
  }

  predicate IsBatchCountExceeded(c: EndpointConfig, batchCount: int)
  {
    c.maxBatchCount > 0 && batchCount > c.maxBatchCount
  }

  /**
   * The limits are inclusive: a size or count equal to the limit is within it, and anything
   * within is still within when it shrinks.
   */
  lemma LimitsInclusiveAndMonotone(c: EndpointConfig, n: int, m: int)
    requires m <= n
    ensures !IsLogSizeExceeded(c, c.maxPayloadSize) && !IsBatchSizeExceeded(c, c.maxBatchSize)
    ensures !IsBatchCountExceeded(c, c.maxBatchCount)
    ensures IsLogSizeExceeded(c, m) ==> IsLogSizeExceeded(c, n)
    ensures IsBatchSizeExceeded(c, m) ==> IsBatchSizeExceeded(c, n)
    ensures IsBatchCountExceeded(c, m) ==> IsBatchCountExceeded(c, n)
  {
  }

  /** A maxBatchCount of zero or less switches the count check off for every count. */
  lemma NonPositiveCountLimitDisablesCheck(c: EndpointConfig, count: int)
    requires c.maxBatchCount <= 0
    ensures !IsBatchCountExceeded(c, count)
  {
  }
}
