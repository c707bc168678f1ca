// The batch repository port, as a map from batch id to the stored batch. Each update names
// the fields it writes; an update of an id that is not stored changes nothing.
module BatchRepositories {
  import opened Wrappers
  import opened Domain
  import opened LogBatches

  type Store = map<string, BatchRecord>

  /** updateStatus(id, status, errorMessage) */
  function WithStatus(s: Store, id: string, status: BatchStatus, errorMessage: string): Store
  {
    if id in s then s[id := s[id].(status := status, errorMessage := Some(errorMessage))] else s
  }

  /** updateStatusAndProcessTime(id, status, processedTime, lastProcessTime) */
  function WithProcessTime(s: Store, id: string, status: BatchStatus, processedTime: Instant, lastProcessTime: Instant): Store
  {
    if id in s then s[id := s[id].(status := status, processedTime := Some(processedTime),
                                   lastProcessTime := Some(lastProcessTime))]
    else s
  }

  /** updateStatusAndRetryCount(id, status, retryCount, lastProcessTime) */
  function WithRetryCount(s: Store, id: string, status: BatchStatus, retryCount: int, lastProcessTime: Instant): Store
  {
    if id in s then s[id := s[id].(status := status, retryCount := retryCount, lastProcessTime := Some(lastProcessTime))]
    else s
  }

  /** updateProcessedBatchStatus(id, status, processedTime, lastProcessTime, batchTraceId, confirmed) */
  function WithProcessedStatus(s: Store, id: string, status: BatchStatus, processedTime: Instant, lastProcessTime: Instant,
                               batchTraceId: Option<string>, confirmed: bool): Store
  {
    if id in s then s[id := s[id].(status := status, processedTime := Some(processedTime),
                                   lastProcessTime := Some(lastProcessTime), batchTraceId := batchTraceId,
                                   confirmed := confirmed)]
    else s
  }

  /** Each batch is stored under its own id, as a repository keyed by batch id keeps it. */
  predicate Keyed(s: Store)
  {
    forall k :: k in s ==> s[k].id == k
  }

  /** Every update keeps the set of stored ids and each batch's identity, logs and reception instant. */
  lemma UpdatesKeepIdentity(s: Store, id: string, status: BatchStatus, msg: string, t1: Instant, t2: Instant, n: int,
                            trace: Option<string>, c: bool)
    ensures var all := [WithStatus(s, id, status, msg), WithProcessTime(s, id, status, t1, t2),
                        WithRetryCount(s, id, status, n, t2), WithProcessedStatus(s, id, status, t1, t2, trace, c)];
      forall i :: 0 <= i < 4 ==>
        (all[i].Keys == s.Keys && forall k :: k in s ==> SameIdentity(s[k], all[i][k]) && (k != id ==> all[i][k] == s[k]))
  {
  }

  /** Before(t, threshold): a set instant strictly earlier than the threshold; an unset one never is. */
  predicate Before(t: Option<Instant>, threshold: Instant)
  {
    t.Some? && t.value < threshold
  }

  /** findByStatusAndProcessedTimeBefore: the stored batches of the status whose processed time is set and earlier. */
  function ProcessedBefore(s: Store, status: BatchStatus, threshold: Instant): (ids: set<string>)
    ensures ids <= s.Keys
  {
    set id | id in s && s[id].status == status && Before(s[id].processedTime, threshold)
  }

  /** findByStatusAndLastProcessTimeBefore: the same on the last process time. */
  function LastProcessedBefore(s: Store, status: BatchStatus, threshold: Instant): (ids: set<string>)
    ensures ids <= s.Keys
  {
    set id | id in s && s[id].status == status && Before(s[id].lastProcessTime, threshold)
  }

  /**
   * The two time queries select by status, so queries for different statuses never share a
   * batch; a later threshold selects at least as much; and a batch whose time was never set is
   * never selected, whatever the threshold.
   */
  lemma TimeQueries(s: Store, st1: BatchStatus, st2: BatchStatus, t1: Instant, t2: Instant)
    ensures st1 != st2 ==> ProcessedBefore(s, st1, t1) !! ProcessedBefore(s, st2, t2)
    ensures st1 != st2 ==> LastProcessedBefore(s, st1, t1) !! LastProcessedBefore(s, st2, t2)
    ensures t1 <= t2 ==> ProcessedBefore(s, st1, t1) <= ProcessedBefore(s, st1, t2)
    ensures t1 <= t2 ==> LastProcessedBefore(s, st1, t1) <= LastProcessedBefore(s, st1, t2)
    ensures forall id :: id in s && s[id].processedTime.None? ==> id !in ProcessedBefore(s, st1, t1)
    ensures forall id :: id in s && s[id].lastProcessTime.None? ==> id !in LastProcessedBefore(s, st1, t1)
  {
  }

  class BatchRepository {
    var batches: Store

    constructor ()
      ensures batches == map[]
    {
      batches := map[];
    }

    /** save: stores the batch under its id, replacing any batch stored there. */
    method Save(b: BatchRecord)
      modifies this
      ensures batches == old(batches)[b.id := b]
    {
      batches := batches[b.id := b];
    }

    method Delete(id: string)
      modifies this
      ensures batches == old(batches) - {id}
    {
      batches := batches - {id};
    }

    method UpdateStatus(id: string, status: BatchStatus, errorMessage: string)
      modifies this
      ensures batches == WithStatus(old(batches), id, status, errorMessage)
    {
      batches := WithStatus(batches, id, status, errorMessage);
    }

    method UpdateStatusAndProcessTime(id: string, status: BatchStatus, processedTime: Instant, lastProcessTime: Instant)
      modifies this
      ensures batches == WithProcessTime(old(batches), id, status, processedTime, lastProcessTime)
    {
      batches := WithProcessTime(batches, id, status, processedTime, lastProcessTime);
    }

    method UpdateStatusAndRetryCount(id: string, status: BatchStatus, retryCount: int, lastProcessTime: Instant)
      modifies this
      ensures batches == WithRetryCount(old(batches), id, status, retryCount, lastProcessTime)
    {
      batches := WithRetryCount(batches, id, status, retryCount, lastProcessTime);
    }

    method UpdateProcessedBatchStatus(id: string, status: BatchStatus, processedTime: Instant, lastProcessTime: Instant,
                                      batchTraceId: Option<string>, confirmed: bool)
      modifies this
      ensures batches == WithProcessedStatus(old(batches), id, status, processedTime, lastProcessTime, batchTraceId, confirmed)
    {
      batches := WithProcessedStatus(batches, id, status, processedTime, lastProcessTime, batchTraceId, confirmed);
    }
  }
}
