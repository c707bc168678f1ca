// LogBufferManager: per-(application, endpoint) buffers of raw logs, flushed into PENDING
// batches when they reach 100 logs or grow older than five seconds.
module LogBuffers {
  import opened Wrappers
  import opened Domain
  import opened RawLogs
  import opened LogBatches
  import opened BatchRepositories
  import Text

  const FlushIntervalMs: int := 1000
  const BufferThreshold: int := 100
  const MaxBufferTimeMs: int := 5000

  /** Buffers are kept under appId + ":" + endpointId. */
  function BufferKey(appId: string, endpointId: string): string
  {
    Text.Join(appId, endpointId)
  }

  /** What a LogBuffer holds: its application, endpoint, logs in append order and creation instant. */
  datatype BufferState = BufferState(appId: string, endpointId: string, logs: seq<RawLog>, creationTime: Instant)

  /** addLog's trigger: at least 100 logs, or created more than 5000 ms before now. */
  predicate FlushDue(b: BufferState, now: Instant)
  {
    |b.logs| >= BufferThreshold || b.creationTime + MaxBufferTimeMs < now
  }

  /** addLog on the buffer contents: append to the key's buffer, creating it stamped now if absent. */
  function Appended(bufs: map<string, BufferState>, log: RawLog, appId: string, endpointId: string, now: Instant)
    : map<string, BufferState>
  {
    var k := BufferKey(appId, endpointId);
    if k in bufs then bufs[k := bufs[k].(logs := bufs[k].logs + [log])]
    else bufs[k := BufferState(appId, endpointId, [log], now)]
  }

  /** addLog of each log in turn to one (application, endpoint), with no flush in between. */
  function AppendedAll(bufs: map<string, BufferState>, logs: seq<RawLog>, appId: string, endpointId: string,
                       now: Instant): map<string, BufferState>
    decreases |logs|
  {
    if logs == [] then bufs
    else AppendedAll(Appended(bufs, logs[0], appId, endpointId, now), logs[1..], appId, endpointId, now)
  }

  /**
   * Appending runs of logs to one key keeps them in order after what the buffer held, keeps the
   * buffer's creation instant once it exists, and leaves every other buffer alone.
   */
  lemma {:induction false} AppendsAccumulate(bufs: map<string, BufferState>, logs: seq<RawLog>, appId: string,
                                             endpointId: string, now: Instant)
    requires logs != []
    decreases |logs|
    ensures var k := BufferKey(appId, endpointId);
      var after := AppendedAll(bufs, logs, appId, endpointId, now);
      k in after
      && after[k].logs == (if k in bufs then bufs[k].logs else []) + logs
      && after[k].creationTime == (if k in bufs then bufs[k].creationTime else now)
      && after.Keys == bufs.Keys + {k}
      && forall other :: other in bufs && other != k ==> after[other] == bufs[other]
  {
    var k := BufferKey(appId, endpointId);
    var next := Appended(bufs, logs[0], appId, endpointId, now);
    AppendedOne(bufs, logs[0], appId, endpointId, now);
    if |logs| == 1 {
      assert logs[1..] == [];
      assert [logs[0]] == logs;
    } else {
      AppendsAccumulate(next, logs[1..], appId, endpointId, now);
      assert AppendedAll(bufs, logs, appId, endpointId, now) == AppendedAll(next, logs[1..], appId, endpointId, now);
      assert logs == [logs[0]] + logs[1..];
    }
  }

  /** One append: the key's buffer gains the log at its end, and nothing else changes. */
  lemma AppendedOne(bufs: map<string, BufferState>, log: RawLog, appId: string, endpointId: string, now: Instant)
    ensures var k := BufferKey(appId, endpointId);
      var after := Appended(bufs, log, appId, endpointId, now);
      k in after
      && after[k].logs == (if k in bufs then bufs[k].logs else []) + [log]
      && after[k].creationTime == (if k in bufs then bufs[k].creationTime else now)
      && after.Keys == bufs.Keys + {k}
      && forall other :: other in bufs && other != k ==> after[other] == bufs[other]
  {
  }

  /** The first log of a new buffer never triggers a flush: one log, created at this very instant. */
  lemma FirstLogNeverTriggers(bufs: map<string, BufferState>, log: RawLog, appId: string, endpointId: string, now: Instant)
    requires BufferKey(appId, endpointId) !in bufs
    ensures !FlushDue(Appended(bufs, log, appId, endpointId, now)[BufferKey(appId, endpointId)], now)
  {
  }

  /** The hundredth log triggers; the age limit is strict: exactly 5000 ms old does not trigger, 5001 ms does. */
  lemma Thresholds(b: BufferState, log: RawLog)
    requires |b.logs| == BufferThreshold - 1
    ensures FlushDue(b.(logs := b.logs + [log]), b.creationTime)
    ensures |b.logs| < BufferThreshold && !FlushDue(b, b.creationTime + MaxBufferTimeMs)
    ensures FlushDue(b, b.creationTime + MaxBufferTimeMs + 1)
  {
  }

  /** The buffer a key holds, if any. */
  function Lookup(bufs: map<string, BufferState>, key: string): Option<BufferState>
  {
    if key in bufs then Some(bufs[key]) else None
  }

  /**
   * flushBuffer on values, given the buffer removed under the key (if any): a non-empty one
   * becomes a PENDING batch under the new id holding the buffer's logs, and the id goes to the
   * callback if one is set.
   */
  function FlushSpec(held: Option<BufferState>, batches: Store, dispatched: seq<string>, callbackSet: bool,
                     batchId: string, now: Instant): (Store, seq<string>)
  {
    if held.None? || held.value.logs == [] then (batches, dispatched)
    else
      var b := held.value;
      (batches[batchId := NewBatch(batchId, b.appId, b.endpointId, b.logs, PENDING, now)],
       if callbackSet then dispatched + [batchId] else dispatched)
  }

  /** An absent or empty buffer saves no batch and fires no callback. */
  lemma FlushOfNothing(held: Option<BufferState>, batches: Store, dispatched: seq<string>, callbackSet: bool,
                       batchId: string, now: Instant)
    requires held.None? || held.value.logs == []
    ensures FlushSpec(held, batches, dispatched, callbackSet, batchId, now) == (batches, dispatched)
  {
  }

  /** A non-empty buffer is saved as one PENDING batch with its logs, application and endpoint; nothing else is stored. */
  lemma FlushSavesBuffer(b: BufferState, batches: Store, dispatched: seq<string>, callbackSet: bool,
                         batchId: string, now: Instant)
    requires b.logs != []
    ensures var (after, calls) := FlushSpec(Some(b), batches, dispatched, callbackSet, batchId, now);
      batchId in after && after[batchId].status == PENDING && after[batchId].logs == b.logs
      && after[batchId].appId == b.appId && after[batchId].endpointId == b.endpointId
      && after[batchId].retryCount == 0 && !after[batchId].confirmed
      && after.Keys == batches.Keys + {batchId}
      && (forall id :: id in batches && id != batchId ==> after[id] == batches[id])
      && (calls == if callbackSet then dispatched + [batchId] else dispatched)
  {
  }

  /** No key or id occurs twice. */
  predicate Distinct(s: seq<string>)
  {
    forall i, j :: 0 <= i < j < |s| ==> s[i] != s[j]
  }

  /** flushBuffer of keys[0], keys[1], ... in turn, the i-th under the batch id ids[i]. */
  function FlushInOrder(bufs: map<string, BufferState>, batches: Store, calls: seq<string>, callbackSet: bool,
                        keys: seq<string>, ids: seq<string>, now: Instant): (Store, seq<string>)
    requires |ids| == |keys|
    decreases |keys|
  {
    if keys == [] then (batches, calls)
    else
      var n := |keys| - 1;
      var prev := FlushInOrder(bufs, batches, calls, callbackSet, keys[..n], ids[..n], now);
      FlushSpec(Lookup(bufs, keys[n]), prev.0, prev.1, callbackSet, ids[n], now)
  }

  /** Distinct keys make a set of the same size. */
  lemma {:induction false} DistinctCardinality(keys: seq<string>)
    requires Distinct(keys)
    ensures |set k | k in keys| == |keys|
  {
    if keys != [] {
      var n := |keys| - 1;
      DistinctCardinality(keys[..n]);
      assert (set k | k in keys) == (set k | k in keys[..n]) + {keys[n]};
      assert keys[n] !in keys[..n];
    }
  }

  /**
   * A list of as many distinct keys as a snapshot holds, each from the snapshot, covers it; so once
   * each of them has been removed, nothing of the snapshot is left.
   */
  lemma NothingLeft(keys: seq<string>, snapshot: set<string>, remaining: set<string>)
    requires Distinct(keys) && |keys| == |snapshot| && forall j :: 0 <= j < |keys| ==> keys[j] in snapshot
    requires forall j :: 0 <= j < |keys| ==> keys[j] !in remaining
    requires remaining <= snapshot
    ensures remaining == {}
  {
    var listed := set k | k in keys;
    DistinctCardinality(keys);
    assert listed <= snapshot;
    assert |snapshot - listed| == 0 by {
      assert snapshot == listed + (snapshot - listed);
    }
    assert snapshot == listed;
    forall k | k in listed
      ensures k !in remaining
    {
      var j :| 0 <= j < |keys| && keys[j] == k;
    }
  }

  /** Flushing one more key continues from where the earlier flushes left off. */
  lemma FlushInOrderSnoc(bufs: map<string, BufferState>, batches: Store, calls: seq<string>, callbackSet: bool,
                         keys: seq<string>, ids: seq<string>, i: nat, now: Instant)
    requires |ids| == |keys| && i < |keys|
    ensures var prev := FlushInOrder(bufs, batches, calls, callbackSet, keys[..i], ids[..i], now);
      FlushInOrder(bufs, batches, calls, callbackSet, keys[..i + 1], ids[..i + 1], now)
      == FlushSpec(Lookup(bufs, keys[i]), prev.0, prev.1, callbackSet, ids[i], now)
  {
    assert keys[..i + 1][..i] == keys[..i] && ids[..i + 1][..i] == ids[..i];
  }

  /**
   * After flushing keys under ids: each key's non-empty buffer is stored as a PENDING batch
   * under its id, every stored id was stored before or is one of the ids, and every batch
   * stored before under another id is kept.
   */
  ghost predicate SavedAll(bufs: map<string, BufferState>, before: Store, keys: seq<string>, ids: seq<string>,
                           batches: Store, now: Instant)
    requires |ids| == |keys|
  {
    (forall i :: 0 <= i < |keys| && keys[i] in bufs && bufs[keys[i]].logs != [] ==>
       var b := bufs[keys[i]];
       ids[i] in batches && batches[ids[i]] == NewBatch(ids[i], b.appId, b.endpointId, b.logs, PENDING, now))
    && (forall id :: id in batches ==> id in before || id in ids)
    && (forall id :: id in before && id !in ids ==> id in batches && batches[id] == before[id])
  }

  /** Flushing under distinct ids saves every non-empty buffer flushed and keeps every other stored batch. */
  lemma {:induction false} FlushInOrderSavesAll(bufs: map<string, BufferState>, batches: Store, calls: seq<string>,
                                                callbackSet: bool, keys: seq<string>, ids: seq<string>, now: Instant)
    requires |ids| == |keys| && Distinct(ids)
    decreases |keys|
    ensures SavedAll(bufs, batches, keys, ids, FlushInOrder(bufs, batches, calls, callbackSet, keys, ids, now).0, now)
  {
    if keys != [] {
      var n := |keys| - 1;
      FlushInOrderSavesAll(bufs, batches, calls, callbackSet, keys[..n], ids[..n], now);
      var prev := FlushInOrder(bufs, batches, calls, callbackSet, keys[..n], ids[..n], now).0;
      var after := FlushInOrder(bufs, batches, calls, callbackSet, keys, ids, now).0;
      assert ids == ids[..n] + [ids[n]];
      assert ids[n] !in ids[..n];
      forall i | 0 <= i < n && keys[i] in bufs && bufs[keys[i]].logs != []
        ensures ids[i] in after && after[ids[i]] == prev[ids[i]]
      {
        assert ids[..n][i] == ids[i];
      }
      forall i | 0 <= i < |keys| && keys[i] in bufs && bufs[keys[i]].logs != []
        ensures var b := bufs[keys[i]];
          ids[i] in after && after[ids[i]] == NewBatch(ids[i], b.appId, b.endpointId, b.logs, PENDING, now)
      {
        if i < n {
          assert keys[..n][i] == keys[i] && ids[..n][i] == ids[i];
        }
      }
    }
  }

  /**
   * Flushing only appends to the callback's calls: the id of every non-empty buffer flushed
   * when a callback is set, nothing when none is.
   */
  lemma {:induction false} FlushInOrderCalls(bufs: map<string, BufferState>, batches: Store, calls: seq<string>,
                                             callbackSet: bool, keys: seq<string>, ids: seq<string>, now: Instant)
    requires |ids| == |keys|
    decreases |keys|
    ensures var dispatched := FlushInOrder(bufs, batches, calls, callbackSet, keys, ids, now).1;
      |calls| <= |dispatched| && dispatched[..|calls|] == calls
      && (forall i :: 0 <= i < |keys| && keys[i] in bufs && bufs[keys[i]].logs != [] && callbackSet ==> ids[i] in dispatched)
      && (!callbackSet ==> dispatched == calls)
  {
    if keys != [] {
      var n := |keys| - 1;
      FlushInOrderCalls(bufs, batches, calls, callbackSet, keys[..n], ids[..n], now);
      var prev := FlushInOrder(bufs, batches, calls, callbackSet, keys[..n], ids[..n], now).1;
      var dispatched := FlushInOrder(bufs, batches, calls, callbackSet, keys, ids, now).1;
      assert dispatched[..|prev|] == prev;
      assert dispatched[..|calls|] == prev[..|calls|];
      forall i | 0 <= i < n && keys[i] in bufs && bufs[keys[i]].logs != [] && callbackSet
        ensures ids[i] in dispatched
      {
        assert keys[..n][i] == keys[i] && ids[..n][i] == ids[i];
      }
    }
  }

  class LogBuffer {
    const appId: string
    const endpointId: string
    var logs: seq<RawLog>
    const creationTime: Instant
    /** The key the buffer is created for. */
    ghost const key: string

    function State(): BufferState
      reads this
    {
      BufferState(appId, endpointId, logs, creationTime)
    }

    constructor (appId: string, endpointId: string, creationTime: Instant)
      ensures State() == BufferState(appId, endpointId, [], creationTime) && key == BufferKey(appId, endpointId)
    {
      this.appId, this.endpointId, this.creationTime := appId, endpointId, creationTime;
      key := BufferKey(appId, endpointId);
      logs := [];
    }

    method AddLog(log: RawLog)
      modifies this`logs
      ensures logs == old(logs) + [log]
    {
      logs := logs + [log];
    }

    function Size(): nat
      reads this
    {
      |logs|
    }
  }

  class LogBufferManager {
    var buffers: map<string, LogBuffer>
    const repository: BatchRepository
    /** Whether a batch-processing callback is set. */
    var callbackSet: bool
    /** The batch ids handed to the callback, in order. */
    var dispatched: seq<string>
    /** Whether the periodic flusher is scheduled. */
    var running: bool

    /** Each buffer sits under the key it was created for; so no buffer object is shared by two keys. */
    ghost predicate Valid()
      reads this, buffers.Values
    {
      forall k :: k in buffers ==> buffers[k].key == k
    }

    /** What each buffer holds, by key. */
    function Contents(): map<string, BufferState>
      reads this, buffers.Values
    {
      map k | k in buffers :: buffers[k].State()
    }

    /** The buffer held under a key, if any. */
    function Held(key: string): (h: Option<BufferState>)
      reads this, buffers.Values
      ensures h == Lookup(Contents(), key)
    {
      if key in buffers then Some(buffers[key].State()) else None
    }

    constructor (repository: BatchRepository)
      ensures Valid() && Contents() == map[] && this.repository == repository
      ensures !callbackSet && dispatched == [] && !running
    {
      this.repository := repository;
      buffers := map[];
      callbackSet, dispatched, running := false, [], false;
    }

    /** afterPropertiesSet: schedules the periodic flush. */
    method Start()
      modifies this`running
      ensures running
    {
      running := true;
    }

    method SetBatchProcessCallback(isSet: bool)
      modifies this`callbackSet
      ensures callbackSet == isSet
    {
      callbackSet := isSet;
    }

    /** The buffers' contents after one key's buffer has changed, all others being as before. */
    lemma ContentsAfterUpdate(key: string, before: map<string, BufferState>, expected: BufferState)
      requires key in buffers && buffers[key].State() == expected && buffers.Keys == before.Keys + {key}
      requires forall k :: k in buffers && k != key ==> buffers[k].State() == before[k]
      ensures Contents() == before[key := expected]
    {
    }

    /** computeIfAbsent: the key's buffer, created empty and stamped now when the key has none. */
    method BufferFor(appId: string, endpointId: string, now: Instant) returns (buffer: LogBuffer)
      requires Valid()
      modifies this`buffers
      ensures Valid()
      ensures var key := BufferKey(appId, endpointId);
        key in buffers && buffers[key] == buffer
        && (key in old(buffers) ==> buffers == old(buffers))
        && (key !in old(buffers) ==> fresh(buffer) && buffers == old(buffers)[key := buffer]
                                     && buffer.State() == BufferState(appId, endpointId, [], now))
    {
      var key := BufferKey(appId, endpointId);
      if key in buffers {
        buffer := buffers[key];
      } else {
        buffer := new LogBuffer(appId, endpointId, now);
        buffers := buffers[key := buffer];
      }
    }

    /** addLog: append to the key's buffer (creating it now if absent) and report whether a flush is due. */
    method AddLog(log: RawLog, appId: string, endpointId: string, now: Instant) returns (triggered: bool)
      requires Valid()
      modifies this`buffers, buffers.Values
      ensures Valid()
      ensures Contents() == Appended(old(Contents()), log, appId, endpointId, now)
      ensures triggered == FlushDue(Contents()[BufferKey(appId, endpointId)], now)
    {
      var key := BufferKey(appId, endpointId);
      ghost var before := Contents();
      ghost var expected := if key in before then before[key].(logs := before[key].logs + [log])
                            else BufferState(appId, endpointId, [log], now);
      assert [] + [log] == [log];
      var buffer := BufferFor(appId, endpointId, now);
      buffer.AddLog(log);
      assert buffer.State() == expected;
      assert forall k :: k in buffers && k != key ==> buffers[k].State() == before[k];
      ContentsAfterUpdate(key, before, expected);
      triggered := buffer.Size() >= BufferThreshold || buffer.creationTime + MaxBufferTimeMs < now;
    }

    /** flushBuffer: remove the key's buffer and, when it holds logs, save them as a batch and notify the callback. */
    method FlushBuffer(key: string, batchId: string, now: Instant)
      modifies this`buffers, this`dispatched, repository
      ensures old(Valid()) ==> Valid()
      ensures buffers == old(buffers) - {key}
      ensures (repository.batches, dispatched)
           == FlushSpec(old(Held(key)), old(repository.batches), old(dispatched), callbackSet, batchId, now)
    {
      if key !in buffers {
        return;
      }
      var buffer := buffers[key];
      buffers := buffers - {key};
      if buffer.logs == [] {
        return;
      }
      var batch := NewBatch(batchId, buffer.appId, buffer.endpointId, buffer.logs, PENDING, now);
      repository.Save(batch);
      if callbackSet {
        dispatched := dispatched + [batchId];
      }
    }

    /**
     * flushAllBuffers: flushes every key of a snapshot of the key set, in the snapshot's order,
     * the i-th under the batch id ids[i]; afterwards no buffer is left.
     */
    method FlushAllBuffers(keys: seq<string>, ids: seq<string>, now: Instant)
      requires Distinct(keys) && |ids| == |keys|
      requires (forall j :: 0 <= j < |keys| ==> keys[j] in buffers) && |keys| == |buffers|
      modifies this`buffers, this`dispatched, repository
      ensures Valid() && buffers == map[]
      ensures (repository.batches, dispatched)
           == FlushInOrder(old(Contents()), old(repository.batches), old(dispatched), callbackSet, keys, ids, now)
    {
      ghost var start := Contents();
      ghost var startBuffers := buffers;
      ghost var startBatches := repository.batches;
      ghost var startCalls := dispatched;
      for i := 0 to |keys|
        invariant forall k :: k in buffers ==> k in startBuffers && buffers[k] == startBuffers[k]
        invariant forall j :: i <= j < |keys| ==> keys[j] in buffers
        invariant forall j :: 0 <= j < i ==> keys[j] !in buffers
        invariant (repository.batches, dispatched)
               == FlushInOrder(start, startBatches, startCalls, callbackSet, keys[..i], ids[..i], now)
      {
        assert Held(keys[i]) == Lookup(start, keys[i]);
        FlushInOrderSnoc(start, startBatches, startCalls, callbackSet, keys, ids, i, now);
        FlushBuffer(keys[i], ids[i], now);
      }
      NothingLeft(keys, startBuffers.Keys, buffers.Keys);
      assert buffers == map[];
      assert keys[..|keys|] == keys && ids[..|ids|] == ids;
    }

    /** destroy: flush every buffer as flushAllBuffers does, then stop the periodic flusher. */
    method Destroy(keys: seq<string>, ids: seq<string>, now: Instant)
      requires Distinct(keys) && |ids| == |keys|
      requires (forall j :: 0 <= j < |keys| ==> keys[j] in buffers) && |keys| == |buffers|
      modifies this`buffers, this`dispatched, this`running, repository
      ensures Valid() && buffers == map[] && !running
      ensures (repository.batches, dispatched)
           == FlushInOrder(old(Contents()), old(repository.batches), old(dispatched), callbackSet, keys, ids, now)
    {
      FlushAllBuffers(keys, ids, now);
      running := false;
    }
  }
}
