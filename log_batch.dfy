// LogBatchEntity: a batch of raw logs and its processing lifecycle
// PENDING -> PROCESSING -> PROCESSED | FAILED.
module LogBatches {
  import opened Wrappers
  import opened Domain
  import opened RawLogs
  import Text

  /** What a LogBatchEntity holds. Absent instants and messages are None (null in the entity). */
  datatype BatchRecord = BatchRecord(
    id: string,
    appId: string,
    endpointId: string,
    logs: seq<RawLog>,
    status: BatchStatus,
    errorMessage: Option<string>,
    receivedTime: Option<Instant>,
    processedTime: Option<Instant>,
    lastProcessTime: Option<Instant>,
    retryCount: int,
    batchTraceId: Option<string>,
    priority: int,
    confirmed: bool)

  /** The constructor: the logs copied, no retries, priority 0, not confirmed, nothing processed yet. */
  function NewBatch(id: string, appId: string, endpointId: string, logs: seq<RawLog>, status: BatchStatus,
                    receivedTime: Instant): (b: BatchRecord)
    ensures b.id == id && b.appId == appId && b.endpointId == endpointId && b.logs == logs && b.status == status
    ensures b.retryCount == 0 && b.priority == 0 && !b.confirmed
    ensures b.receivedTime == Some(receivedTime) && b.processedTime.None? && b.lastProcessTime.None?
    ensures b.errorMessage.None? && b.batchTraceId.None?
  {
    BatchRecord(id, appId, endpointId, logs, status, None, Some(receivedTime), None, None, 0, None, 0, false)
  }

  function MarkProcessing(b: BatchRecord, now: Instant): BatchRecord
  {
    b.(status := PROCESSING, lastProcessTime := Some(now))
  }

  function MarkProcessed(b: BatchRecord, batchTraceId: Option<string>, now: Instant): BatchRecord
  {
    b.(status := PROCESSED, processedTime := Some(now), lastProcessTime := Some(now), confirmed := true,
       batchTraceId := batchTraceId)
  }

  function MarkFailed(b: BatchRecord, errorMessage: string, now: Instant): BatchRecord
  {
    b.(status := FAILED, errorMessage := Some(errorMessage), lastProcessTime := Some(now))
  }

  function MarkConfirmed(b: BatchRecord): BatchRecord
  {
    b.(confirmed := true)
  }

  function IncrementRetry(b: BatchRecord): BatchRecord
  {
    b.(retryCount := b.retryCount + 1)
  }

  /** canRetry(max): a failed batch with fewer than max retries. */
  predicate CanRetry(b: BatchRecord, maxRetryCount: int)
  {
    b.status == FAILED && b.retryCount < maxRetryCount
  }

  /** needsConfirmation: processed but not yet confirmed downstream. */
  predicate NeedsConfirmation(b: BatchRecord)
  {
    b.status == PROCESSED && !b.confirmed
  }

  /** getProcessingTimeMs: processed minus received, or 0 while either is missing. */
  function ProcessingTimeMs(b: BatchRecord): int
  {
    if b.processedTime.None? || b.receivedTime.None? then 0 else b.processedTime.value - b.receivedTime.value
  }

  /** getWaitTimeMs: from reception to processing, or to now while unprocessed; the received instant must be set. */
  function WaitTimeMs(b: BatchRecord, now: Instant): (ms: int)
    requires b.receivedTime.Some?
    ensures b.processedTime.Some? ==> ms == ProcessingTimeMs(b)
  {
    (if b.processedTime.Some? then b.processedTime.value else now) - b.receivedTime.value
  }

  /** getLogCount */
  function LogCount(b: BatchRecord): nat
  {
    |b.logs|
  }

  /** The UTF-8 byte length of every log's content, summed. */
  function ContentBytes(logs: seq<RawLog>): nat
  {
    if logs == [] then 0 else Text.Utf8Length(logs[0].content) + ContentBytes(logs[1..])
  }

  /** getPayloadSize */
  function PayloadSize(b: BatchRecord): nat
  {
    ContentBytes(b.logs)
  }

  /** The payload of two runs of logs is the sum of their payloads. */
  lemma {:induction false} ContentBytesAppend(a: seq<RawLog>, c: seq<RawLog>)
    ensures ContentBytes(a + c) == ContentBytes(a) + ContentBytes(c)
  {
    if a == [] {
      assert a + c == c;
    } else {
      assert (a + c)[1..] == a[1..] + c;
      ContentBytesAppend(a[1..], c);
    }
  }

  /** Every log contributes at least one byte per character and at most four. */
  lemma {:induction false} PayloadBounds(logs: seq<RawLog>)
    ensures forall i :: 0 <= i < |logs| ==> ContentBytes(logs) >= |logs[i].content|
    ensures |logs| > 0 ==> ContentBytes(logs) >= Text.Utf8Length(logs[0].content)
  {
    if logs != [] {
      PayloadBounds(logs[1..]);
      assert forall i :: 1 <= i < |logs| ==> logs[i] == logs[1..][i - 1];
    }
  }

  /** Every transition keeps the batch's identity, logs and reception instant. */
  predicate SameIdentity(a: BatchRecord, b: BatchRecord)
  {
    a.id == b.id && a.appId == b.appId && a.endpointId == b.endpointId && a.logs == b.logs
    && a.receivedTime == b.receivedTime
  }

  /**
   * markAsProcessed: PROCESSED, confirmed, with the trace id, and processed and last-process
   * instants equal; so the batch needs no confirmation and its processing time is measured
   * from reception to now. Identity is kept.
   */
  lemma ProcessedMeaning(b: BatchRecord, batchTraceId: Option<string>, now: Instant)
    ensures var p := MarkProcessed(b, batchTraceId, now);
      p.status == PROCESSED && p.confirmed && p.batchTraceId == batchTraceId
      && p.lastProcessTime == p.processedTime == Some(now)
      && !NeedsConfirmation(p) && !CanRetry(p, b.retryCount + 1)
      && (b.receivedTime.Some? ==> ProcessingTimeMs(p) == now - b.receivedTime.value)
      && SameIdentity(b, p) && p.retryCount == b.retryCount
  {
  }

  /** markAsFailed: FAILED with the message and the instant; it can then be retried exactly while retries remain. */
  lemma FailedMeaning(b: BatchRecord, errorMessage: string, now: Instant, maxRetryCount: int)
    ensures var f := MarkFailed(b, errorMessage, now);
      f.status == FAILED && f.errorMessage == Some(errorMessage) && f.lastProcessTime == Some(now)
      && (CanRetry(f, maxRetryCount) <==> b.retryCount < maxRetryCount)
      && !NeedsConfirmation(f) && SameIdentity(b, f) && f.processedTime == b.processedTime
  {
  }

  /** k increments of the retry count. */
  function IncrementRetryTimes(b: BatchRecord, k: nat): BatchRecord
  {
    if k == 0 then b else IncrementRetry(IncrementRetryTimes(b, k - 1))
  }

  /**
   * incrementRetryCount adds exactly one each time: after k increments a failed batch can be
   * retried exactly while its original count plus k stays below the maximum.
   */
  lemma {:induction false} RetriesRunOut(b: BatchRecord, k: nat, maxRetryCount: int)
    ensures IncrementRetryTimes(b, k).retryCount == b.retryCount + k
    ensures IncrementRetryTimes(b, k).status == b.status && SameIdentity(b, IncrementRetryTimes(b, k))
    ensures b.status == FAILED ==> (CanRetry(IncrementRetryTimes(b, k), maxRetryCount) <==> b.retryCount + k < maxRetryCount)
  {
    if k > 0 {
      RetriesRunOut(b, k - 1, maxRetryCount);
    }
  }

  /** A batch that is not processed has processing time 0. */
  lemma UnprocessedTakesNoTime(b: BatchRecord)
    requires b.processedTime.None?
    ensures ProcessingTimeMs(b) == 0
  {
  }

  class LogBatchEntity {
    const id: string
    const appId: string
    const endpointId: string
    var logs: seq<RawLog>
    var status: BatchStatus
    var errorMessage: Option<string>
    const receivedTime: Option<Instant>
    var processedTime: Option<Instant>
    var lastProcessTime: Option<Instant>
    var retryCount: int
    var batchTraceId: Option<string>
    var priority: int
    var confirmed: bool

    function Record(): BatchRecord
      reads this
    {
      BatchRecord(id, appId, endpointId, logs, status, errorMessage, receivedTime, processedTime,
                  lastProcessTime, retryCount, batchTraceId, priority, confirmed)
    }

    constructor (id: string, appId: string, endpointId: string, logs: seq<RawLog>, status: BatchStatus,
                 receivedTime: Instant)
      ensures Record() == NewBatch(id, appId, endpointId, logs, status, receivedTime)
    {
      this.id, this.appId, this.endpointId := id, appId, endpointId;
      this.logs, this.status, this.receivedTime := logs, status, Some(receivedTime);
      errorMessage, processedTime, lastProcessTime, batchTraceId := None, None, None, None;
      retryCount, priority, confirmed := 0, 0, false;
    }

    method MarkAsProcessing(now: Instant)
      modifies this
      ensures Record() == MarkProcessing(old(Record()), now)
    {
      status, lastProcessTime := PROCESSING, Some(now);
    }

    method MarkAsProcessed(batchTraceId: Option<string>, now: Instant)
      modifies this
      ensures Record() == MarkProcessed(old(Record()), batchTraceId, now)
    {
      status := PROCESSED;
      processedTime := Some(now);
      lastProcessTime := processedTime;
      confirmed := true;
      this.batchTraceId := batchTraceId;
    }

    method MarkAsFailed(errorMessage: string, now: Instant)
      modifies this
      ensures Record() == MarkFailed(old(Record()), errorMessage, now)
    {
      status, this.errorMessage, lastProcessTime := FAILED, Some(errorMessage), Some(now);
    }

    method MarkAsConfirmed()
      modifies this
      ensures Record() == MarkConfirmed(old(Record()))
    {
      confirmed := true;
    }

    method IncrementRetryCount()
      modifies this
      ensures Record() == IncrementRetry(old(Record()))
    {
      retryCount := retryCount + 1;
    }

    /** setLogs, which the batch processor uses to attach the submitted logs to the stored batch. */
    method SetLogs(logs: seq<RawLog>)
      modifies this
      ensures Record() == old(Record()).(logs := logs)
    {
      this.logs := logs;
    }
  }
}
