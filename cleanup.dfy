// BatchCleanupService: one cleanup run deletes processed batches past their retention, then
// failed batches past theirs, then marks PROCESSING batches that have timed out as FAILED.
module BatchCleanup {
  import opened Wrappers
  import opened Domain
  import opened LogBatches
  import opened BatchRepositories

  const HourMs: int := 3_600_000
  const MinuteMs: int := 60_000
  const TimeoutMessage: string := "处理超时"

  /** CleanupConfig's retention and timeout settings. */
  datatype CleanupConfig = CleanupConfig(processedRetentionHours: int, failedRetentionHours: int, timeoutMinutes: int)

  /** The settings' defaults: 24 hours, 72 hours and 30 minutes. */
  const DefaultConfig: CleanupConfig := CleanupConfig(24, 72, 30)

  function ProcessedThreshold(cfg: CleanupConfig, now: Instant): Instant
  {
    now - cfg.processedRetentionHours * HourMs
  }

  function FailedThreshold(cfg: CleanupConfig, now: Instant): Instant
  {
    now - cfg.failedRetentionHours * HourMs
  }

  function TimeoutThreshold(cfg: CleanupConfig, now: Instant): Instant
  {
    now - cfg.timeoutMinutes * MinuteMs
  }

  /** The ids the processed sweep deletes. */
  function ExpiredProcessed(s: Store, cfg: CleanupConfig, now: Instant): set<string>
  {
    ProcessedBefore(s, PROCESSED, ProcessedThreshold(cfg, now))
  }

  /** The ids the failed sweep deletes. */
  function ExpiredFailed(s: Store, cfg: CleanupConfig, now: Instant): set<string>
  {
    LastProcessedBefore(s, FAILED, FailedThreshold(cfg, now))
  }

  /** The ids the timeout sweep marks FAILED. */
  function TimedOut(s: Store, cfg: CleanupConfig, now: Instant): set<string>
  {
    LastProcessedBefore(s, PROCESSING, TimeoutThreshold(cfg, now))
  }

  /** The batches under ids marked FAILED with the timeout message, the rest unchanged. */
  function MarkedFailed(s: Store, ids: set<string>, now: Instant): (r: Store)
    ensures r.Keys == s.Keys
  {
    map k | k in s :: if k in ids then MarkFailed(s[k], TimeoutMessage, now) else s[k]
  }

  /** cleanupBatches: the three sweeps in order, each reading the store the previous one left. */
  function CleanupSpec(s: Store, cfg: CleanupConfig, now: Instant): Store
  {
    var s1 := s - ExpiredProcessed(s, cfg, now);
    var s2 := s1 - ExpiredFailed(s1, cfg, now);
    MarkedFailed(s2, TimedOut(s2, cfg, now), now)
  }

  /**
   * What one cleanup run leaves, batch by batch: a batch survives unless it is PROCESSED past
   * the processed retention or FAILED past the failed retention; a survivor that is PROCESSING
   * past the timeout is FAILED with the timeout message, and every other survivor is unchanged.
   */
  lemma CleanupMeaning(s: Store, cfg: CleanupConfig, now: Instant, k: string)
    ensures var r := CleanupSpec(s, cfg, now);
      && (k in r <==> k in s && !(s[k].status == PROCESSED && Before(s[k].processedTime, ProcessedThreshold(cfg, now)))
                             && !(s[k].status == FAILED && Before(s[k].lastProcessTime, FailedThreshold(cfg, now))))
      && (k in r ==> r[k] == if s[k].status == PROCESSING && Before(s[k].lastProcessTime, TimeoutThreshold(cfg, now))
                              then MarkFailed(s[k], TimeoutMessage, now) else s[k])
  {
  }

  /** A PENDING batch is never touched by a cleanup run. */
  lemma PendingUntouched(s: Store, cfg: CleanupConfig, now: Instant, k: string)
    requires k in s && s[k].status == PENDING
    ensures k in CleanupSpec(s, cfg, now) && CleanupSpec(s, cfg, now)[k] == s[k]
  {
    CleanupMeaning(s, cfg, now, k);
  }

  /**
   * The failed sweep runs before the timeout sweep, so a batch that times out in this run is
   * FAILED at the end but not deleted, even when its last processing instant is already past
   * the failed retention.
   */
  lemma TimedOutSurvivesRun(s: Store, cfg: CleanupConfig, now: Instant, k: string)
    requires k in s && s[k].status == PROCESSING && Before(s[k].lastProcessTime, TimeoutThreshold(cfg, now))
    ensures var r := CleanupSpec(s, cfg, now);
      k in r && r[k].status == FAILED && r[k].errorMessage == Some(TimeoutMessage) && r[k].lastProcessTime == Some(now)
      && SameIdentity(s[k], r[k])
  {
    CleanupMeaning(s, cfg, now, k);
  }

  class BatchCleanupService {
    const repository: BatchRepository
    const config: CleanupConfig

    constructor (repository: BatchRepository, config: CleanupConfig)
      ensures this.repository == repository && this.config == config
    {
      this.repository := repository;
      this.config := config;
    }

    /** cleanupProcessedBatches: deletes each PROCESSED batch processed before the threshold. */
    method CleanupProcessedBatches(now: Instant)
      modifies repository
      ensures repository.batches == old(repository.batches) - ExpiredProcessed(old(repository.batches), config, now)
    {
      var batches := ProcessedBefore(repository.batches, PROCESSED, now - config.processedRetentionHours * HourMs);
      DeleteAll(batches);
    }

    /** cleanupFailedBatches: deletes each FAILED batch last processed before the threshold. */
    method CleanupFailedBatches(now: Instant)
      modifies repository
      ensures repository.batches == old(repository.batches) - ExpiredFailed(old(repository.batches), config, now)
    {
      var batches := LastProcessedBefore(repository.batches, FAILED, now - config.failedRetentionHours * HourMs);
      DeleteAll(batches);
    }

    /** The deletion loop both retention sweeps share. */
    method DeleteAll(batches: set<string>)
      modifies repository
      ensures repository.batches == old(repository.batches) - batches
    {
      ghost var s0 := repository.batches;
      var remaining := batches;
      while remaining != {}
        invariant remaining <= batches
        invariant repository.batches == s0 - (batches - remaining)
        decreases |remaining|
      {
        var id :| id in remaining;
        repository.Delete(id);
        remaining := remaining - {id};
      }
    }

    /** cleanupTimeoutBatches: marks each PROCESSING batch last processed before the threshold FAILED and saves it. */
    method CleanupTimeoutBatches(now: Instant)
      requires Keyed(repository.batches)
      modifies repository
      ensures repository.batches == MarkedFailed(old(repository.batches), TimedOut(old(repository.batches), config, now), now)
      ensures Keyed(repository.batches)
    {
      ghost var s0 := repository.batches;
      var batches := LastProcessedBefore(repository.batches, PROCESSING, now - config.timeoutMinutes * MinuteMs);
      var remaining := batches;
      while remaining != {}
        invariant remaining <= batches <= s0.Keys
        invariant repository.batches == MarkedFailed(s0, batches - remaining, now)
        decreases |remaining|
      {
        var id :| id in remaining;
        ghost var done := batches - remaining;
        var batch := repository.batches[id];
        repository.Save(MarkFailed(batch, TimeoutMessage, now));
        remaining := remaining - {id};
        assert batches - remaining == done + {id};
      }
    }

    /** cleanupBatches: the processed, failed and timeout sweeps, in that order. */
    method CleanupBatches(now: Instant)
      requires Keyed(repository.batches)
      modifies repository
      ensures repository.batches == CleanupSpec(old(repository.batches), config, now)
    {
      CleanupProcessedBatches(now);
      CleanupFailedBatches(now);
      CleanupTimeoutBatches(now);
    }
  }
}
