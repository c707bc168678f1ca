// BatchProcessingService: processes one batch with an idempotency probe, at most
// MaxRetryCount + 1 attempts separated by exponential back-off, and a final FAILED write.
// The repository is the BatchRepository object; each attempt's clock, storage probe,
// preprocessing gateway, storage gateway and interruption are given by an Attempt value.
module BatchProcessing {
  import opened Wrappers
  import opened Domain
  import opened LogBatches
  import opened BatchRepositories
  import opened ProcessedLogs

  const MaxRetryCount: nat := 3
  const RetryIntervalMs: nat := 1000
  const FinalFailurePrefix: string := "批次处理失败，已达到最大重试次数: "
  const UnknownError: string := "未知错误"

  /** IStorageGateway.BatchStorageResult as processing sees it, or an exception from storeBatch. */
  datatype StoreOutcome =
    | Stored(batchTraceId: Option<string>)
    | Rejected(errorMessage: string)
    | StoreThrew(message: string)

  /** Everything outside the service that one pass of the retry loop observes. */
  datatype Attempt = Attempt(
    now: Instant,                                         // Instant.now() for the pass's status writes
    storedProbe: Result<bool, string>,                    // isBatchStored, or the message it threw
    preprocess: BatchRecord -> Result<seq<LogRecord>, string>,  // preprocessFromBatch
    store: (BatchRecord, seq<LogRecord>) -> StoreOutcome,       // storeBatch
    interrupted: bool)                                    // whether the back-off after this pass is interrupted

  /** What the service does besides repository writes and waits, in order: storage calls and metrics. */
  datatype Effect =
    | StoreCall(batchId: string, logs: seq<LogRecord>)
    | RecordSuccess(appId: string, endpointId: string, validCount: int, processingTimeMs: int)
    | RecordRetry(appId: string, endpointId: string)
    | RecordFailure(appId: string, endpointId: string)

  /** fetchAndValidateBatch's answer: the batch to process, nothing to do, or an exception. */
  datatype Fetched = Proceed(batch: BatchRecord) | Skip | Threw(message: string)

  /** How the retry loop was left, besides its own condition. */
  datatype Exit = Running | Returned | Interrupted

  /** The loop's variables, the repository, the effects and the back-off waits (ms) so far. */
  datatype LoopState = LoopState(
    batches: Store,
    effects: seq<Effect>,
    waits: seq<nat>,
    retryCount: nat,
    success: bool,
    lastException: Option<string>,
    exit: Exit,
    attempts: nat)

  function Pow2(n: nat): (p: nat)
    ensures p >= 1
  {
    if n == 0 then 1 else 2 * Pow2(n - 1)
  }

  /** The back-off before retry n: RETRY_INTERVAL_MS · 2^(n−1). */
  function BackoffMs(retryCount: nat): (ms: nat)
    requires retryCount >= 1
  {
    RetryIntervalMs * Pow2(retryCount - 1)
  }

  /** Each back-off doubles the previous one, starting from one interval, so waits never shrink. */
  lemma BackoffDoubles(n: nat)
    requires n >= 1
    ensures BackoffMs(1) == RetryIntervalMs
    ensures BackoffMs(n + 1) == 2 * BackoffMs(n) && BackoffMs(n) < BackoffMs(n + 1)
    ensures BackoffMs(1) == 1000 && BackoffMs(2) == 2000 && BackoffMs(3) == 4000
  {
  }

  /** The validated logs, in their original order (the stream filter on isValidated). */
  function Validated(logs: seq<LogRecord>): seq<LogRecord>
  {
    if logs == [] then [] else (if logs[0].validated then [logs[0]] else []) + Validated(logs[1..])
  }

  /** Filtering distributes over concatenation, so the relative order of kept logs is unchanged. */
  lemma {:induction false} ValidatedAppend(a: seq<LogRecord>, b: seq<LogRecord>)
    ensures Validated(a + b) == Validated(a) + Validated(b)
  {
    if a == [] {
      assert a + b == b;
    } else {
      assert (a + b)[1..] == a[1..] + b;
      ValidatedAppend(a[1..], b);
    }
  }

  /** Exactly the validated logs are kept: every kept log is validated and from the input, and each validated input log is kept. */
  lemma {:induction false} ValidatedKeepsExactly(logs: seq<LogRecord>)
    ensures forall r :: r in Validated(logs) ==> r.validated && r in logs
    ensures forall r :: r in logs && r.validated ==> r in Validated(logs)
    ensures Validated(logs) == [] <==> forall i :: 0 <= i < |logs| ==> !logs[i].validated
  {
    if logs != [] {
      ValidatedKeepsExactly(logs[1..]);
      assert forall i :: 1 <= i < |logs| ==> logs[i] == logs[1..][i - 1];
      assert logs == [logs[0]] + logs[1..];
    }
  }

  /** fetchAndValidateBatch, with updateBatchAsAlreadyStored when storage already holds the batch. */
  function FetchSpec(s: Store, entity: BatchRecord, a: Attempt): (Store, Fetched)
  {
    if entity.id !in s then (s, Skip)
    else
      var batch := s[entity.id].(logs := entity.logs);
      if batch.status == PROCESSED then (s, Skip)
      else if batch.status == FAILED && batch.retryCount >= MaxRetryCount then (s, Skip)
      else match a.storedProbe
        case Err(msg) => (s, Threw(msg))
        case Ok(stored) =>
          if stored then (WithProcessedStatus(s, entity.id, PROCESSED, a.now, a.now, None, true), Skip)
          else (s, Proceed(batch))
  }

  /** publishSuccessEventAndMetrics: a success metric for the re-read batch, when it is found. */
  function SuccessMetric(s: Store, id: string, validCount: int): seq<Effect>
  {
    if id in s then [RecordSuccess(s[id].appId, s[id].endpointId, validCount, ProcessingTimeMs(s[id]))] else []
  }

  /**
   * processLogBatch: PROCESSING with the pass's retry count, then preprocessing; no valid log
   * marks the batch PROCESSED, otherwise the valid logs go to storage and only a successful
   * result marks it PROCESSED with the trace id. Any failure is returned as false.
   */
  function ProcessSpec(s: Store, batch: BatchRecord, retryCount: nat, a: Attempt): (Store, bool, seq<Effect>)
  {
    var s1 := WithRetryCount(s, batch.id, PROCESSING, retryCount, a.now);
    match a.preprocess(batch)
    case Err(_) => (s1, false, [])
    case Ok(processed) =>
      var valid := Validated(processed);
      if valid == [] then (WithProcessTime(s1, batch.id, PROCESSED, a.now, a.now), true, [])
      else
        match a.store(batch, valid)
        case Stored(trace) =>
          var s2 := WithProcessedStatus(s1, batch.id, PROCESSED, a.now, a.now, trace, true);
          (s2, true, [StoreCall(batch.id, valid)] + SuccessMetric(s2, batch.id, |valid|))
        case Rejected(_) => (s1, false, [StoreCall(batch.id, valid)])
        case StoreThrew(_) => (s1, false, [StoreCall(batch.id, valid)])
  }

  /** recordRetryMetrics: a retry metric for the batch, when it is found. */
  function RetryMetric(s: Store, id: string): seq<Effect>
  {
    if id in s then [RecordRetry(s[id].appId, s[id].endpointId)] else []
  }

  /** After a failed pass: the back-off wait while retries remain; an interrupted wait leaves the loop. */
  function AfterFailure(st: LoopState, id: string, a: Attempt): LoopState
    requires st.retryCount >= 1
  {
    if st.retryCount <= MaxRetryCount then
      st.(effects := st.effects + RetryMetric(st.batches, id), waits := st.waits + [BackoffMs(st.retryCount)],
          exit := if a.interrupted then Interrupted else Running)
    else st
  }

  /** One pass of the retry loop's body. */
  function Step(entity: BatchRecord, a: Attempt, st: LoopState): (r: LoopState)
    ensures r.attempts == st.attempts + 1
    ensures r.retryCount == st.retryCount || r.retryCount == st.retryCount + 1
    ensures r.retryCount == st.retryCount ==> r.success || r.exit == Returned
  {
    var fetched := FetchSpec(st.batches, entity, a);
    AfterFetch(entity.id, a, st.(batches := fetched.0, attempts := st.attempts + 1), fetched.1)
  }

  /** The rest of a pass once fetchAndValidateBatch has answered f. */
  function AfterFetch(id: string, a: Attempt, st: LoopState, f: Fetched): (r: LoopState)
    ensures r.attempts == st.attempts
    ensures r.retryCount == st.retryCount || r.retryCount == st.retryCount + 1
    ensures r.retryCount == st.retryCount ==> r.success || r.exit == Returned
  {
    match f
    case Skip => st.(exit := Returned)
    case Threw(msg) =>
      AfterFailure(st.(lastException := Some(msg), retryCount := st.retryCount + 1), id, a)
    case Proceed(batch) =>
      var (s2, ok, out) := ProcessSpec(st.batches, batch, st.retryCount, a);
      var st2 := st.(batches := s2, effects := st.effects + out);
      if ok then st2.(success := true)
      else AfterFailure(st2.(retryCount := st.retryCount + 1), id, a)
  }

  /** The loop condition. */
  predicate Continues(st: LoopState)
  {
    st.retryCount <= MaxRetryCount && !st.success && st.exit == Running
  }

  /** The retry loop from st on, the attempt for each pass chosen by the retry count so far. */
  function Loop(entity: BatchRecord, env: nat -> Attempt, st: LoopState): LoopState
    decreases MaxRetryCount + 1 - st.retryCount, if Continues(st) then 1 else 0
  {
    if Continues(st) then Loop(entity, env, Step(entity, env(st.retryCount), st)) else st
  }

  /** handleFinalFailure as written: with no recorded exception, exception.getMessage() throws and nothing is written. */
  function FinalFailureAsWritten(s: Store, id: string, lastException: Option<string>): (Store, seq<Effect>)
  {
    match lastException
    case None => (s, [])
    case Some(msg) =>
      var s1 := WithStatus(s, id, FAILED, FinalFailurePrefix + msg);
      (s1, if id in s1 then [RecordFailure(s1[id].appId, s1[id].endpointId)] else [])
  }

  /** The final-failure message, naming the last exception or, without one, an unknown error. */
  function FinalFailureMessage(lastException: Option<string>): string
  {
    FinalFailurePrefix + (match lastException case Some(msg) => msg case None => UnknownError)
  }

  /** handleFinalFailure as intended: the batch is marked FAILED whether or not an exception was recorded. */
  function FinalFailure(s: Store, id: string, lastException: Option<string>): (Store, seq<Effect>)
  {
    var s1 := WithStatus(s, id, FAILED, FinalFailureMessage(lastException));
    (s1, if id in s1 then [RecordFailure(s1[id].appId, s1[id].endpointId)] else [])
  }

  /** The loop's starting values. */
  function Start(s: Store): LoopState
  {
    LoopState(s, [], [], 0, false, None, Running, 0)
  }

  /** processBatchAsync: nothing for a null batch; otherwise the loop, then the final failure once retries are exhausted. */
  function Run(entity: Option<BatchRecord>, env: nat -> Attempt, s: Store): (Store, seq<Effect>, seq<nat>)
  {
    match entity
    case None => (s, [], [])
    case Some(e) =>
      var st := Loop(e, env, Start(s));
      if !st.success && st.retryCount > MaxRetryCount then
        var (s1, out) := FinalFailure(st.batches, e.id, st.lastException);
        (s1, st.effects + out, st.waits)
      else (st.batches, st.effects, st.waits)
  }

  // ---------------------------------------------------------------------------------------
  // Properties of the specification

  /** The loop keeps the retry count, the attempt count and the way it was left in step. */
  predicate Counted(st: LoopState)
  {
    st.retryCount <= MaxRetryCount + 1
    && (if st.success || st.exit == Returned then st.attempts == st.retryCount + 1 else st.attempts == st.retryCount)
    && (st.exit != Running || st.success ==> st.retryCount <= MaxRetryCount)
    && (st.success ==> st.exit == Running)
    && st.waits == Backoffs(MinRetry(st.retryCount))
  }

  /** The back-off waits of retries 1 to n, in order. */
  function Backoffs(n: nat): seq<nat>
    requires n <= MaxRetryCount
  {
    if n == 0 then [] else Backoffs(n - 1) + [BackoffMs(n)]
  }

  function MinRetry(n: nat): nat
  {
    if n <= MaxRetryCount then n else MaxRetryCount
  }

  /** One pass keeps the counters in step. */
  lemma StepCounted(entity: BatchRecord, a: Attempt, st: LoopState)
    requires Counted(st) && Continues(st)
    ensures Counted(Step(entity, a, st))
  {
    var (s1, f) := FetchSpec(st.batches, entity, a);
    match f
    case Skip =>
    case Threw(msg) =>
    case Proceed(batch) =>
      var (s2, ok, out) := ProcessSpec(s1, batch, st.retryCount, a);
  }

  /** At most MaxRetryCount + 1 passes run, and an interrupted loop never reaches the final failure. */
  lemma {:induction false} LoopBounded(entity: BatchRecord, env: nat -> Attempt, st: LoopState)
    requires Counted(st)
    ensures var r := Loop(entity, env, st);
      Counted(r) && !Continues(r) && r.attempts <= MaxRetryCount + 1
      && (r.exit == Interrupted ==> r.retryCount <= MaxRetryCount)
    decreases MaxRetryCount + 1 - st.retryCount, if Continues(st) then 1 else 0
  {
    if Continues(st) {
      StepCounted(entity, env(st.retryCount), st);
      LoopBounded(entity, env, Step(entity, env(st.retryCount), st));
    }
  }

  /** A pass of processLogBatch: storage sees exactly the validated logs, and the batch ends PROCESSED on success and PROCESSING with the pass's retry count on failure. */
  lemma ProcessOutcome(s: Store, batch: BatchRecord, retryCount: nat, a: Attempt)
    ensures var (r, ok, out) := ProcessSpec(s, batch, retryCount, a);
      && r.Keys == s.Keys && (forall k :: k in s && k != batch.id ==> r[k] == s[k])
      && (batch.id in s ==>
            && LogBatches.SameIdentity(s[batch.id], r[batch.id])
            && (ok ==> r[batch.id].status == PROCESSED && r[batch.id].processedTime == r[batch.id].lastProcessTime == Some(a.now))
            && (!ok ==> r[batch.id].status == PROCESSING && r[batch.id].retryCount == retryCount
                        && r[batch.id].lastProcessTime == Some(a.now))
            && (ok && out != [] ==> r[batch.id].confirmed && r[batch.id].batchTraceId == a.store(batch, out[0].logs).batchTraceId))
      && (forall i :: 0 <= i < |out| && out[i].StoreCall? ==>
            i == 0 && a.preprocess(batch).Ok? && out[i].logs == Validated(a.preprocess(batch).value) && out[i].logs != [])
      && (ok <==> a.preprocess(batch).Ok?
                  && (Validated(a.preprocess(batch).value) == []
                      || a.store(batch, Validated(a.preprocess(batch).value)).Stored?))
  {
  }

  /** r holds the same ids as s, each batch with the same identity. */
  ghost predicate KeepsIdentity(s: Store, r: Store)
  {
    r.Keys == s.Keys && forall k :: k in s ==> LogBatches.SameIdentity(s[k], r[k])
  }

  lemma IdentityTransitive(s: Store, t: Store, u: Store)
    requires KeepsIdentity(s, t) && KeepsIdentity(t, u)
    ensures KeepsIdentity(s, u)
  {
  }

  /** The loop only updates stored batches: it keeps the stored ids and each batch's identity. */
  lemma {:induction false} LoopKeepsIdentity(entity: BatchRecord, env: nat -> Attempt, st: LoopState)
    ensures var r := Loop(entity, env, st);
      KeepsIdentity(st.batches, r.batches)
    decreases MaxRetryCount + 1 - st.retryCount, if Continues(st) then 1 else 0
  {
    if Continues(st) {
      var n := Step(entity, env(st.retryCount), st);
      StepKeepsIdentity(entity, env(st.retryCount), st);
      LoopKeepsIdentity(entity, env, n);
      IdentityTransitive(st.batches, n.batches, Loop(entity, env, n).batches);
    }
  }

  /** One pass keeps the stored ids and each batch's identity. */
  lemma StepKeepsIdentity(entity: BatchRecord, a: Attempt, st: LoopState)
    ensures var n := Step(entity, a, st);
      KeepsIdentity(st.batches, n.batches)
  {
    var fetched := FetchSpec(st.batches, entity, a);
    var st1 := st.(batches := fetched.0, attempts := st.attempts + 1);
    FetchKeepsIdentity(st.batches, entity, a);
    AfterFetchKeepsIdentity(entity.id, a, st1, fetched.1);
    IdentityTransitive(st.batches, st1.batches, AfterFetch(entity.id, a, st1, fetched.1).batches);
  }

  lemma FetchKeepsIdentity(s: Store, entity: BatchRecord, a: Attempt)
    ensures var r := FetchSpec(s, entity, a).0;
      KeepsIdentity(s, r)
  {
  }

  lemma AfterFetchKeepsIdentity(id: string, a: Attempt, st: LoopState, f: Fetched)
    ensures var n := AfterFetch(id, a, st, f);
      KeepsIdentity(st.batches, n.batches)
  {
    if f.Proceed? {
      ProcessOutcome(st.batches, f.batch, st.retryCount, a);
    }
  }

  /** A missing, processed, or exhausted failed batch is left alone: no write and no effect. */
  lemma NothingToDo(entity: BatchRecord, env: nat -> Attempt, s: Store)
    requires entity.id !in s || s[entity.id].status == PROCESSED
             || (s[entity.id].status == FAILED && s[entity.id].retryCount >= MaxRetryCount)
    ensures Run(Some(entity), env, s) == (s, [], [])
  {
    var n := Step(entity, env(0), Start(s));
    assert n == Start(s).(attempts := 1, exit := Returned);
    assert Loop(entity, env, n) == n;
  }

  /** A batch storage already holds is marked PROCESSED and confirmed with no trace id, and is neither preprocessed nor stored again. */
  lemma AlreadyStored(entity: BatchRecord, env: nat -> Attempt, s: Store)
    requires entity.id in s && s[entity.id].status != PROCESSED
    requires !(s[entity.id].status == FAILED && s[entity.id].retryCount >= MaxRetryCount)
    requires env(0).storedProbe == Ok(true)
    ensures var (r, out, waits) := Run(Some(entity), env, s);
      && waits == [] && r == WithProcessedStatus(s, entity.id, PROCESSED, env(0).now, env(0).now, None, true)
      && out == [] && r[entity.id].confirmed && r[entity.id].batchTraceId.None?
  {
    var s1 := WithProcessedStatus(s, entity.id, PROCESSED, env(0).now, env(0).now, None, true);
    var n := Step(entity, env(0), Start(s));
    assert n == Start(s).(batches := s1, attempts := 1, exit := Returned);
    assert Loop(entity, env, n) == n;
  }

  /** An interrupted back-off leaves the loop before retries run out, so no final-failure write follows. */
  lemma InterruptedSkipsFinalFailure(entity: BatchRecord, env: nat -> Attempt, s: Store)
    requires Loop(entity, env, Start(s)).exit == Interrupted
    ensures var st := Loop(entity, env, Start(s)); Run(Some(entity), env, s) == (st.batches, st.effects, st.waits)
  {
    LoopBounded(entity, env, Start(s));
  }

  /** The final failure is written exactly when the loop ends without success and with retries exhausted; the batch is then FAILED. */
  lemma ExhaustedRunFails(entity: BatchRecord, env: nat -> Attempt, s: Store)
    requires entity.id in s
    ensures var st := Loop(entity, env, Start(s));
      var (r, out, _) := Run(Some(entity), env, s);
      if !st.success && st.retryCount > MaxRetryCount then
        entity.id in r && r[entity.id].status == FAILED && r[entity.id].errorMessage == Some(FinalFailureMessage(st.lastException))
        && out == st.effects + [RecordFailure(s[entity.id].appId, s[entity.id].endpointId)]
      else r == st.batches && out == st.effects
  {
    LoopKeepsIdentity(entity, env, Start(s));
  }

  /** A whole run makes at most four passes and waits 1000, 2000, 4000 ms in that order, cut short when the loop ends early. */
  lemma RunBounded(entity: BatchRecord, env: nat -> Attempt, s: Store)
    ensures var st := Loop(entity, env, Start(s));
      && st.attempts <= MaxRetryCount + 1
      && st.waits == [1000, 2000, 4000][..MinRetry(st.retryCount)]
      && Run(Some(entity), env, s).2 == st.waits
  {
    LoopBounded(entity, env, Start(s));
    BackoffDoubles(2);
    assert Backoffs(3) == [1000, 2000, 4000];
    assert Backoffs(2) == [1000, 2000];
  }

  /** Passes that fail by returning false, never by throwing, on a batch no other writer touches. */
  ghost predicate OnlyReturnedFailures(env: nat -> Attempt)
  {
    forall n: nat :: env(n).storedProbe == Ok(false) && !env(n).interrupted
                     && forall b :: env(n).preprocess(b).Err?
  }

  /** With only returned failures the loop runs out of retries, records no exception, and leaves the batch PROCESSING. */
  lemma {:induction false} ReturnedFailuresExhaust(entity: BatchRecord, env: nat -> Attempt, st: LoopState)
    requires OnlyReturnedFailures(env)
    requires st.exit == Running && !st.success && st.lastException.None? && st.retryCount <= MaxRetryCount + 1
    requires entity.id in st.batches && st.batches[entity.id].id == entity.id
    requires st.batches[entity.id].status in {PENDING, PROCESSING}
    requires st.retryCount > 0 ==> st.batches[entity.id].status == PROCESSING
    ensures var r := Loop(entity, env, st);
      && r.retryCount == MaxRetryCount + 1 && !r.success && r.lastException.None?
      && entity.id in r.batches && r.batches[entity.id].status == PROCESSING
    decreases MaxRetryCount + 1 - st.retryCount
  {
    if Continues(st) {
      var a := env(st.retryCount);
      var batch := st.batches[entity.id].(logs := entity.logs);
      assert FetchSpec(st.batches, entity, a) == (st.batches, Proceed(batch));
      assert a.preprocess(batch).Err?;
      ReturnedFailuresExhaust(entity, env, Step(entity, a, st));
    }
  }

  /**
   * handleFinalFailure as written does nothing after returned failures: the batch stays
   * PROCESSING for good, while the intended final failure marks it FAILED.
   */
  lemma ReturnedFailuresLeaveProcessing(entity: BatchRecord, env: nat -> Attempt, s: Store)
    requires OnlyReturnedFailures(env)
    requires entity.id in s && s[entity.id].id == entity.id && s[entity.id].status == PENDING
    ensures var st := Loop(entity, env, Start(s));
      && st.lastException.None? && st.retryCount > MaxRetryCount && !st.success && entity.id in st.batches
      && FinalFailureAsWritten(st.batches, entity.id, st.lastException).0[entity.id].status == PROCESSING
      && Run(Some(entity), env, s).0[entity.id].status == FAILED
      && Run(Some(entity), env, s).0[entity.id].errorMessage == Some(FinalFailurePrefix + UnknownError)
  {
    ReturnedFailuresExhaust(entity, env, Start(s));
  }

  /** A concrete run: one PENDING batch and a preprocessing gateway that always fails. */
  lemma ReturnedFailuresExample()
    ensures var e := NewBatch("b1", "app", "ep", [], PENDING, 0);
      var env := (n: nat) => Attempt(n, Ok(false), (b: BatchRecord) => Err("preprocess failed"),
                                     (b: BatchRecord, l: seq<LogRecord>) => Rejected("unused"), false);
      var st := Loop(e, env, Start(map["b1" := e]));
      "b1" in st.batches && FinalFailureAsWritten(st.batches, "b1", st.lastException).0["b1"].status == PROCESSING
  {
    var e := NewBatch("b1", "app", "ep", [], PENDING, 0);
    var env := (n: nat) => Attempt(n, Ok(false), (b: BatchRecord) => Err("preprocess failed"),
                                   (b: BatchRecord, l: seq<LogRecord>) => Rejected("unused"), false);
    ReturnedFailuresLeaveProcessing(e, env, map["b1" := e]);
  }

  // ---------------------------------------------------------------------------------------
  // The service

  class BatchProcessingService {
    const repository: BatchRepository

    constructor (repository: BatchRepository)
      ensures this.repository == repository
    {
      this.repository := repository;
    }

    /** fetchAndValidateBatch, including the already-stored update; an exception from the probe is returned as Threw. */
    method FetchAndValidateBatch(entity: BatchRecord, a: Attempt) returns (f: Fetched)
      modifies repository
      ensures (repository.batches, f) == FetchSpec(old(repository.batches), entity, a)
    {
      if entity.id !in repository.batches {
        return Skip;
      }
      var batch := repository.batches[entity.id].(logs := entity.logs);
      if batch.status == PROCESSED {
        return Skip;
      }
      if batch.status == FAILED && batch.retryCount >= MaxRetryCount {
        return Skip;
      }
      match a.storedProbe {
        case Err(msg) =>
          f := Threw(msg);
        case Ok(stored) =>
          if stored {
            repository.UpdateProcessedBatchStatus(entity.id, PROCESSED, a.now, a.now, None, true);
            f := Skip;
          } else {
            f := Proceed(batch);
          }
      }
    }

    /** processLogBatch: the pass's status writes, the storage call and the success metric. */
    method ProcessLogBatch(batch: BatchRecord, retryCount: nat, a: Attempt) returns (success: bool, out: seq<Effect>)
      modifies repository
      ensures (repository.batches, success, out) == ProcessSpec(old(repository.batches), batch, retryCount, a)
    {
      repository.UpdateStatusAndRetryCount(batch.id, PROCESSING, retryCount, a.now);
      var processed := a.preprocess(batch);
      if processed.Err? {
        return false, [];
      }
      var valid := Validated(processed.value);
      if valid == [] {
        repository.UpdateStatusAndProcessTime(batch.id, PROCESSED, a.now, a.now);
        return true, [];
      }
      var result := a.store(batch, valid);
      if !result.Stored? {
        return false, [StoreCall(batch.id, valid)];
      }
      repository.UpdateProcessedBatchStatus(batch.id, PROCESSED, a.now, a.now, result.batchTraceId, true);
      var metric := PublishSuccessEventAndMetrics(batch.id, |valid|);
      return true, [StoreCall(batch.id, valid)] + metric;
    }

    /** publishSuccessEventAndMetrics: re-reads the batch and reports its processing time. */
    method PublishSuccessEventAndMetrics(id: string, validCount: int) returns (out: seq<Effect>)
      ensures out == SuccessMetric(repository.batches, id, validCount)
      ensures |out| <= 1 && (out != [] <==> id in repository.batches)
      ensures out != [] ==> out[0].processingTimeMs == ProcessingTimeMs(repository.batches[id])
    {
      out := [];
      if id in repository.batches {
        var b := repository.batches[id];
        out := [RecordSuccess(b.appId, b.endpointId, validCount, ProcessingTimeMs(b))];
      }
    }

    /** executeRetryWait: the retry metric, then the back-off sleep; false when the sleep is interrupted. */
    method ExecuteRetryWait(retryCount: nat, id: string, a: Attempt) returns (waited: bool, out: seq<Effect>, waitMs: nat)
      requires retryCount >= 1
      ensures waited == !a.interrupted
      ensures out == RetryMetric(repository.batches, id) && waitMs == BackoffMs(retryCount)
    {
      out := [];
      if id in repository.batches {
        out := [RecordRetry(repository.batches[id].appId, repository.batches[id].endpointId)];
      }
      waitMs := RetryIntervalMs * Pow2(retryCount - 1);
      waited := !a.interrupted;
    }

    /** handleFinalFailure, with the message defaulting to an unknown error when no exception was recorded. */
    method HandleFinalFailure(id: string, lastException: Option<string>) returns (out: seq<Effect>)
      modifies repository
      ensures (repository.batches, out) == FinalFailure(old(repository.batches), id, lastException)
    {
      var message := FinalFailurePrefix + (match lastException case Some(msg) => msg case None => UnknownError);
      repository.UpdateStatus(id, FAILED, message);
      out := [];
      if id in repository.batches {
        out := [RecordFailure(repository.batches[id].appId, repository.batches[id].endpointId)];
      }
    }

    /** One pass of processBatchAsync's loop body: fetch, process, and on failure count the retry and wait. */
    method Pass(entity: BatchRecord, a: Attempt, retryCount: nat, lastException: Option<string>, effects: seq<Effect>,
                waits: seq<nat>, ghost attempts: nat)
      returns (retryCount': nat, success: bool, lastException': Option<string>, effects': seq<Effect>, waits': seq<nat>,
               exit: Exit)
      requires retryCount <= MaxRetryCount
      modifies repository
      ensures LoopState(repository.batches, effects', waits', retryCount', success, lastException', exit, attempts + 1)
              == Step(entity, a, LoopState(old(repository.batches), effects, waits, retryCount, false, lastException, Running, attempts))
      ensures exit == Interrupted ==> retryCount' <= MaxRetryCount
      ensures exit == Returned ==> !success && retryCount' <= MaxRetryCount
    {
      ghost var st := LoopState(repository.batches, effects, waits, retryCount, false, lastException, Running, attempts);
      retryCount', success, lastException', effects', waits', exit := retryCount, false, lastException, effects, waits, Running;
      var f := FetchAndValidateBatch(entity, a);
      ghost var st1 := st.(batches := repository.batches, attempts := attempts + 1);
      assert Step(entity, a, st) == AfterFetch(entity.id, a, st1, f);
      ghost var base := st1;
      match f {
        case Skip =>
          exit := Returned;
          return;
        case Threw(msg) =>
          lastException' := Some(msg);
          retryCount' := retryCount + 1;
          st1 := st1.(lastException := Some(msg), retryCount := retryCount + 1);
        case Proceed(batch) =>
          ghost var s1 := repository.batches;
          var out;
          success, out := ProcessLogBatch(batch, retryCount, a);
          assert ProcessSpec(s1, batch, retryCount, a) == (repository.batches, success, out);
          effects' := effects + out;
          st1 := st1.(batches := repository.batches, effects := effects');
          if success {
            st1 := st1.(success := true);
            assert AfterFetch(entity.id, a, base, f) == st1;
            return;
          }
          retryCount' := retryCount + 1;
          st1 := st1.(retryCount := retryCount');
      }
      assert AfterFetch(entity.id, a, base, f) == AfterFailure(st1, entity.id, a);
      if retryCount' <= MaxRetryCount {
        var waited, out, waitMs := ExecuteRetryWait(retryCount', entity.id, a);
        effects' := effects' + out;
        waits' := waits' + [waitMs];
        if !waited {
          exit := Interrupted;
        }
      }
    }

    /**
     * processBatchAsync: the retry loop over the passes env(0), env(1), …, then the final
     * failure. Leaving the loop by an interrupted wait returns at once: the final check that
     * follows the loop cannot hold then, as retries remain.
     */
    method ProcessBatchAsync(entity: Option<BatchRecord>, env: nat -> Attempt) returns (effects: seq<Effect>, waits: seq<nat>)
      modifies repository
      ensures (repository.batches, effects, waits) == Run(entity, env, old(repository.batches))
      ensures entity.None? ==> repository.batches == old(repository.batches) && effects == [] && waits == []
    {
      effects, waits := [], [];
      if entity.None? {
        return;
      }
      var e := entity.value;
      ghost var start := Start(repository.batches);
      var retryCount: nat := 0;
      var success := false;
      var lastException: Option<string> := None;
      ghost var attempts: nat := 0;
      while retryCount <= MaxRetryCount && !success
        invariant Loop(e, env, LoopState(repository.batches, effects, waits, retryCount, success, lastException, Running, attempts))
                  == Loop(e, env, start)
        decreases MaxRetryCount + 1 - retryCount, if success then 0 else 1
      {
        ghost var st := LoopState(repository.batches, effects, waits, retryCount, success, lastException, Running, attempts);
        assert Loop(e, env, st) == Loop(e, env, Step(e, env(retryCount), st));
        var exit;
        retryCount, success, lastException, effects, waits, exit :=
          Pass(e, env(retryCount), retryCount, lastException, effects, waits, attempts);
        attempts := attempts + 1;
        if exit != Running {
          assert Loop(e, env, Step(e, env(st.retryCount), st)) == Step(e, env(st.retryCount), st);
          return;
        }
      }
      if !success && retryCount > MaxRetryCount {
        var out := HandleFinalFailure(e.id, lastException);
        effects := effects + out;
      }
    }
  }
}
