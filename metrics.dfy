// LogProcessingMetrics: per-(application, endpoint) counters and processing-time statistics.
module Metrics {
  import JavaInt
  import Text

  /** Metrics are kept under appId + ":" + endpointId. */
  function MetricKey(appId: string, endpointId: string): string
  {
    Text.Join(appId, endpointId)
  }

  /** A counter's value; a key never recorded reads as 0. */
  function CountOf(m: map<string, int>, key: string): int
  {
    if key in m then m[key] else 0
  }

  /** Long.MAX_VALUE, the value a minimum starts from. */
  const LongMax: int := JavaInt.Two63 - 1

  function MaxOf(a: int, b: int): int { if a >= b then a else b }
  function MinOf(a: int, b: int): int { if a <= b then a else b }

  /** The four processing-time statistics of one key: total, maximum, minimum and sample count. */
  datatype TimeStats = TimeStats(total: int, max: int, min: int, count: int)

  /** The values the four statistics are created with: total 0, maximum 0, minimum Long.MAX_VALUE, count 0. */
  const NoSamples: TimeStats := TimeStats(0, 0, LongMax, 0)

  /** recordProcessingTime on one key's statistics: add to the total, raise the maximum, lower the minimum, count one more. */
  function AddSample(s: TimeStats, t: int): (r: TimeStats)
    ensures r.count == s.count + 1 && r.total == s.total + t
    ensures r.max >= s.max && r.max >= t && (r.max == s.max || r.max == t)
    ensures r.min <= s.min && r.min <= t && (r.min == s.min || r.min == t)
  {
    TimeStats(s.total + t, MaxOf(s.max, t), MinOf(s.min, t), s.count + 1)
  }

  /** At least one sample, and the total lies between count·minimum and count·maximum. */
  predicate Consistent(s: TimeStats)
  {
    s.count >= 1 && s.min * s.count <= s.total <= s.max * s.count
  }

  /** Adding a sample, to fresh statistics or to consistent ones, gives consistent statistics. */
  lemma AddSampleConsistent(s: TimeStats, t: int)
    requires s == NoSamples || Consistent(s)
    ensures Consistent(AddSample(s, t))
  {
    var r := AddSample(s, t);
    if s == NoSamples {
      assert r.count == 1;
    } else {
      JavaInt.MulMonotone(r.min, s.min, s.count);
      JavaInt.MulMonotone(s.max, r.max, s.count);
      assert r.min * r.count == r.min * s.count + r.min;
      assert r.max * r.count == r.max * s.count + r.max;
    }
  }

  /** With consistent statistics the average lies between the minimum and the maximum. */
  lemma AverageBetweenMinAndMax(s: TimeStats)
    requires Consistent(s)
    ensures s.min as real <= s.total as real / s.count as real <= s.max as real
  {
    var c := s.count as real;
    assert (s.min * s.count) as real == s.min as real * c;
    assert (s.max * s.count) as real == s.max as real * c;
    assert s.total as real / c * c == s.total as real;
  }

  /** The statistics of a key in the four maps; a key never recorded has the values the maps would create for it. */
  function StatsOf(total: map<string, int>, max: map<string, int>, min: map<string, int>, count: map<string, int>,
                   key: string): TimeStats
  {
    if key in total && key in max && key in min && key in count
    then TimeStats(total[key], max[key], min[key], count[key])
    else NoSamples
  }

  /** The four maps have the same keys, and every key's statistics are consistent. */
  ghost predicate StatsValid(total: map<string, int>, max: map<string, int>, min: map<string, int>, count: map<string, int>)
  {
    total.Keys == count.Keys && max.Keys == count.Keys && min.Keys == count.Keys
    && forall k :: k in count ==> Consistent(StatsOf(total, max, min, count, k))
  }

  /**
   * Writing one sample's statistics into the four maps keeps them valid, gives the key the
   * sample added to its statistics, and leaves every other key's statistics alone.
   */
  lemma SampleKeepsStatsValid(total: map<string, int>, max: map<string, int>, min: map<string, int>,
                              count: map<string, int>, key: string, t: int)
    requires StatsValid(total, max, min, count)
    ensures var r := AddSample(StatsOf(total, max, min, count, key), t);
      var total', max', min', count' := total[key := r.total], max[key := r.max], min[key := r.min], count[key := r.count];
      StatsValid(total', max', min', count')
      && StatsOf(total', max', min', count', key) == r
      && forall other :: other != key ==> StatsOf(total', max', min', count', other) == StatsOf(total, max, min, count, other)
  {
    AddSampleConsistent(StatsOf(total, max, min, count, key), t);
  }

  class LogProcessingMetrics {
    var receivedLogs: map<string, int>
    var receivedBatches: map<string, int>
    var processedSuccess: map<string, int>
    var processedFailure: map<string, int>
    var retries: map<string, int>
    var timeTotal: map<string, int>
    var timeMax: map<string, int>
    var timeMin: map<string, int>
    var timeCount: map<string, int>

    /** The four statistics maps are created together, and every key's statistics are consistent. */
    ghost predicate Valid()
      reads this
    {
      StatsValid(timeTotal, timeMax, timeMin, timeCount)
    }

    /** The statistics of a key; a key never recorded has the values the maps would create for it. */
    function Stats(key: string): TimeStats
      reads this
    {
      StatsOf(timeTotal, timeMax, timeMin, timeCount, key)
    }

    constructor ()
      ensures Valid()
      ensures receivedLogs == map[] && receivedBatches == map[] && processedSuccess == map[]
      ensures processedFailure == map[] && retries == map[]
      ensures timeTotal == map[] && timeMax == map[] && timeMin == map[] && timeCount == map[]
    {
      receivedLogs, receivedBatches, processedSuccess, processedFailure, retries := map[], map[], map[], map[], map[];
      timeTotal, timeMax, timeMin, timeCount := map[], map[], map[], map[];
    }

    method RecordLogReceived(appId: string, endpointId: string, count: int)
      modifies this`receivedLogs
      ensures ReceivedLogCount(appId, endpointId) == old(ReceivedLogCount(appId, endpointId)) + count
      ensures var k := MetricKey(appId, endpointId);
        receivedLogs == old(receivedLogs)[k := CountOf(old(receivedLogs), k) + count]
    {
      var k := MetricKey(appId, endpointId);
      receivedLogs := receivedLogs[k := CountOf(receivedLogs, k) + count];
    }

    method RecordBatchReceived(appId: string, endpointId: string)
      modifies this`receivedBatches
      ensures ReceivedBatchCount(appId, endpointId) == old(ReceivedBatchCount(appId, endpointId)) + 1
      ensures var k := MetricKey(appId, endpointId);
        receivedBatches == old(receivedBatches)[k := CountOf(old(receivedBatches), k) + 1]
    {
      var k := MetricKey(appId, endpointId);
      receivedBatches := receivedBatches[k := CountOf(receivedBatches, k) + 1];
    }

    /** recordProcessSuccess: count the logs and record the processing time as one sample. */
    method RecordProcessSuccess(appId: string, endpointId: string, logCount: int, processingTimeMs: int)
      requires Valid()
      modifies this`processedSuccess, this`timeTotal, this`timeMax, this`timeMin, this`timeCount
      ensures Valid()
      ensures ProcessedSuccessCount(appId, endpointId) == old(ProcessedSuccessCount(appId, endpointId)) + logCount
      ensures var k := MetricKey(appId, endpointId);
        processedSuccess == old(processedSuccess)[k := CountOf(old(processedSuccess), k) + logCount]
        && Stats(k) == AddSample(old(Stats(k)), processingTimeMs)
        && timeCount.Keys == old(timeCount.Keys) + {k}
        && forall other :: other != k ==> Stats(other) == old(Stats(other))
    {
      var k := MetricKey(appId, endpointId);
      processedSuccess := processedSuccess[k := CountOf(processedSuccess, k) + logCount];
      RecordProcessingTime(k, processingTimeMs);
    }

    method RecordProcessFailure(appId: string, endpointId: string)
      modifies this`processedFailure
      ensures ProcessedFailureCount(appId, endpointId) == old(ProcessedFailureCount(appId, endpointId)) + 1
      ensures var k := MetricKey(appId, endpointId);
        processedFailure == old(processedFailure)[k := CountOf(old(processedFailure), k) + 1]
    {
      var k := MetricKey(appId, endpointId);
      processedFailure := processedFailure[k := CountOf(processedFailure, k) + 1];
    }

    method RecordRetry(appId: string, endpointId: string)
      modifies this`retries
      ensures RetryCount(appId, endpointId) == old(RetryCount(appId, endpointId)) + 1
      ensures var k := MetricKey(appId, endpointId);
        retries == old(retries)[k := CountOf(old(retries), k) + 1]
    {
      var k := MetricKey(appId, endpointId);
      retries := retries[k := CountOf(retries, k) + 1];
    }

    /** recordProcessingTime: one more sample for the key; the other keys' statistics are untouched. */
    method RecordProcessingTime(key: string, processingTimeMs: int)
      requires Valid()
      modifies this`timeTotal, this`timeMax, this`timeMin, this`timeCount
      ensures Valid()
      ensures Stats(key) == AddSample(old(Stats(key)), processingTimeMs)
      ensures timeCount.Keys == old(timeCount.Keys) + {key}
      ensures forall other :: other != key ==> Stats(other) == old(Stats(other))
    {
      var r := AddSample(Stats(key), processingTimeMs);
      SampleKeepsStatsValid(timeTotal, timeMax, timeMin, timeCount, key, processingTimeMs);
      timeTotal := timeTotal[key := r.total];
      timeMax := timeMax[key := r.max];
      timeMin := timeMin[key := r.min];
      timeCount := timeCount[key := r.count];
    }

    function ReceivedLogCount(appId: string, endpointId: string): int
      reads this
    {
      CountOf(receivedLogs, MetricKey(appId, endpointId))
    }

    function ReceivedBatchCount(appId: string, endpointId: string): int
      reads this
    {
      CountOf(receivedBatches, MetricKey(appId, endpointId))
    }

    function ProcessedSuccessCount(appId: string, endpointId: string): int
      reads this
    {
      CountOf(processedSuccess, MetricKey(appId, endpointId))
    }

    function ProcessedFailureCount(appId: string, endpointId: string): int
      reads this
    {
      CountOf(processedFailure, MetricKey(appId, endpointId))
    }

    function RetryCount(appId: string, endpointId: string): int
      reads this
    {
      CountOf(retries, MetricKey(appId, endpointId))
    }

    /** getAverageProcessingTime: 0 with no samples, else total / count. */
    function AverageProcessingTime(appId: string, endpointId: string): real
      reads this
    {
      var k := MetricKey(appId, endpointId);
      if k !in timeTotal || k !in timeCount || timeCount[k] == 0 then 0.0
      else timeTotal[k] as real / timeCount[k] as real
    }

    function MaxProcessingTime(appId: string, endpointId: string): int
      reads this
    {
      CountOf(timeMax, MetricKey(appId, endpointId))
    }

    function MinProcessingTime(appId: string, endpointId: string): int
      reads this
    {
      CountOf(timeMin, MetricKey(appId, endpointId))
    }

    /** reset: every counter and statistic is forgotten. */
    method Reset()
      modifies this
      ensures Valid()
      ensures receivedLogs == map[] && receivedBatches == map[] && processedSuccess == map[]
      ensures processedFailure == map[] && retries == map[]
      ensures timeTotal == map[] && timeMax == map[] && timeMin == map[] && timeCount == map[]
    {
      receivedLogs, receivedBatches, processedSuccess, processedFailure, retries := map[], map[], map[], map[], map[];
      timeTotal, timeMax, timeMin, timeCount := map[], map[], map[], map[];
    }
  }

  /** Every getter reads 0 for a key that has never been recorded. */
  lemma NeverRecordedReadsZero(m: LogProcessingMetrics, appId: string, endpointId: string)
    requires var k := MetricKey(appId, endpointId);
      k !in m.receivedLogs && k !in m.receivedBatches && k !in m.processedSuccess && k !in m.processedFailure
      && k !in m.retries && k !in m.timeTotal && k !in m.timeMax && k !in m.timeMin && k !in m.timeCount
    ensures m.ReceivedLogCount(appId, endpointId) == 0 && m.ReceivedBatchCount(appId, endpointId) == 0
    ensures m.ProcessedSuccessCount(appId, endpointId) == 0 && m.ProcessedFailureCount(appId, endpointId) == 0
    ensures m.RetryCount(appId, endpointId) == 0 && m.AverageProcessingTime(appId, endpointId) == 0.0
    ensures m.MaxProcessingTime(appId, endpointId) == 0 && m.MinProcessingTime(appId, endpointId) == 0
  {
  }

  /**
   * Once a key has a sample, its reported average lies between its reported minimum and maximum,
   * and the minimum never exceeds the maximum.
   */
  lemma ReportedAverageInRange(m: LogProcessingMetrics, appId: string, endpointId: string)
    requires m.Valid() && MetricKey(appId, endpointId) in m.timeCount
    ensures m.MinProcessingTime(appId, endpointId) as real <= m.AverageProcessingTime(appId, endpointId)
                                                          <= m.MaxProcessingTime(appId, endpointId) as real
    ensures m.MinProcessingTime(appId, endpointId) <= m.MaxProcessingTime(appId, endpointId)
  {
    var s := m.Stats(MetricKey(appId, endpointId));
    AverageBetweenMinAndMax(s);
  }
}
