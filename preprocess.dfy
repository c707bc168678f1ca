// LogPreprocessService: turns raw logs into processed logs through per-format strategies.
module Preprocess {
  import opened Wrappers
  import opened Domain
  import opened RawLogs
  import opened ProcessedLogs

  /** What a strategy's process does to one log: its edits, then possibly an exception with a message. */
  datatype SingleOutcome = SingleOutcome(edits: seq<Edit>, thrown: Option<string>)

  /** What a strategy's processBatch does: the edits for the i-th log, then possibly an exception. */
  datatype BatchOutcome = BatchOutcome(edits: seq<seq<Edit>>, thrown: Option<string>)

  /** A preprocessing strategy, as the service sees it. */
  datatype Strategy = Strategy(
    supportsBatch: bool,
    process: LogRecord -> SingleOutcome,
    processBatch: seq<LogRecord> -> BatchOutcome)

  /** The batch a preprocessFromBatch call reads its logs and identifiers from. */
  datatype LogBatch = LogBatch(appId: string, endpointId: string, logs: seq<RawLog>)

  const FailurePrefix: string := "预处理失败: "

  /** The ProcessedLog built from a raw log before any strategy runs. */
  function Base(raw: RawLog, appId: string, endpointId: string, now: Instant): LogRecord
  {
    Initial(raw.content, raw.format, raw.metadata, appId, endpointId, now)
  }

  /** preprocess: the strategy's edits, or, when it throws, a fresh log marked failed with the message. */
  function PreprocessSpec(raw: RawLog, strategy: Option<Strategy>, appId: string, endpointId: string,
                          now: Instant): LogRecord
  {
    var base := Base(raw, appId, endpointId, now);
    if strategy.None? then base
    else
      var out := strategy.value.process(base);
      if out.thrown.Some? then ApplyEdit(base, MarkValidationFailed(FailurePrefix + out.thrown.value))
      else ApplyEdits(base, out.edits)
  }

  /**
   * preprocess never throws and keeps the raw log's content and format. Without a strategy the
   * log is validated; when the strategy throws, the log carries the raw metadata, no structured
   * fields and the failure reason built from the message.
   */
  lemma PreprocessOutcome(raw: RawLog, strategy: Option<Strategy>, appId: string, endpointId: string, now: Instant)
    ensures SameIdentity(PreprocessSpec(raw, strategy, appId, endpointId, now), Base(raw, appId, endpointId, now))
    ensures PreprocessSpec(raw, strategy, appId, endpointId, now).content == raw.content
    ensures PreprocessSpec(raw, strategy, appId, endpointId, now).appId == appId
    ensures strategy.None? ==> PreprocessSpec(raw, strategy, appId, endpointId, now).validated
    ensures strategy.Some? && strategy.value.process(Base(raw, appId, endpointId, now)).thrown.Some? ==>
      var r := PreprocessSpec(raw, strategy, appId, endpointId, now);
      && !r.validated
      && r.validationFailReason == Some(FailurePrefix + strategy.value.process(Base(raw, appId, endpointId, now)).thrown.value)
      && r.metadata == raw.metadata && r.structuredFields == map[]
  {
    if strategy.Some? {
      EditsKeepIdentityAndFailure(Base(raw, appId, endpointId, now),
                                  strategy.value.process(Base(raw, appId, endpointId, now)).edits);
    }
  }

  /** The logs of one format, in input order (Collectors.groupingBy keeps encounter order). */
  function Group(raws: seq<RawLog>, f: LogFormat): (g: seq<RawLog>)
    ensures |g| <= |raws|
    ensures forall i :: 0 <= i < |g| ==> g[i].format == f
  {
    if raws == [] then []
    else (if raws[0].format == f then [raws[0]] else []) + Group(raws[1..], f)
  }

  function Bases(group: seq<RawLog>, appId: string, endpointId: string, now: Instant): (bs: seq<LogRecord>)
    ensures |bs| == |group|
    ensures forall i :: 0 <= i < |group| ==> bs[i] == Base(group[i], appId, endpointId, now)
  {
    seq(|group|, i requires 0 <= i < |group| => Base(group[i], appId, endpointId, now))
  }

  /** The edits processBatch made to the i-th log (none when it reported fewer). */
  function BatchEdits(out: BatchOutcome, i: nat): seq<Edit>
  {
    if i < |out.edits| then out.edits[i] else []
  }

  /** One format's group: batch-processed when the strategy supports it, else log by log. */
  function ProcessGroup(group: seq<RawLog>, strategy: Option<Strategy>, appId: string, endpointId: string,
                        now: Instant): Result<seq<LogRecord>, string>
  {
    if strategy.Some? && strategy.value.supportsBatch then
      var bases := Bases(group, appId, endpointId, now);
      var out := strategy.value.processBatch(bases);
      if out.thrown.Some? then Err(out.thrown.value)
      else Ok(seq(|group|, i requires 0 <= i < |group| => ApplyEdits(bases[i], BatchEdits(out, i))))
    else
      Ok(seq(|group|, i requires 0 <= i < |group| => PreprocessSpec(group[i], strategy, appId, endpointId, now)))
  }

  /** The formats visited: the distinct keys of the grouping map, in its iteration order. */
  predicate IsFormatOrder(raws: seq<RawLog>, order: seq<LogFormat>)
  {
    (forall i, j :: 0 <= i < j < |order| ==> order[i] != order[j])
    && (forall i :: 0 <= i < |raws| ==> raws[i].format in order)
  }

  /**
   * preprocessBatch over the first formats of the iteration order: each non-empty group appended
   * in turn; the first batch strategy to throw aborts the whole call.
   */
  function BatchSpec(raws: seq<RawLog>, strategies: LogFormat -> Option<Strategy>, order: seq<LogFormat>,
                     appId: string, endpointId: string, now: Instant): Result<seq<LogRecord>, string>
    decreases |order|
  {
    if order == [] then Ok([])
    else
      var prev := BatchSpec(raws, strategies, order[..|order| - 1], appId, endpointId, now);
      var f := order[|order| - 1];
      var group := Group(raws, f);
      if prev.Err? || group == [] then prev
      else
        var g := ProcessGroup(group, strategies(f), appId, endpointId, now);
        if g.Err? then Err(g.error) else Ok(prev.value + g.value)
  }

  // ---- The grouping neither loses nor duplicates logs ----

  /** The part of a log no preprocessing can change: its content and format. */
  function RawKeys(raws: seq<RawLog>): (ks: seq<(string, LogFormat)>)
    ensures |ks| == |raws|
    ensures forall i :: 0 <= i < |raws| ==> ks[i] == (raws[i].content, raws[i].format)
  {
    seq(|raws|, i requires 0 <= i < |raws| => (raws[i].content, raws[i].format))
  }

  function Keys(rs: seq<LogRecord>): (ks: seq<(string, LogFormat)>)
    ensures |ks| == |rs|
    ensures forall i :: 0 <= i < |rs| ==> ks[i] == (rs[i].content, rs[i].format)
  {
    seq(|rs|, i requires 0 <= i < |rs| => (rs[i].content, rs[i].format))
  }

  lemma RawKeysAppend(a: seq<RawLog>, b: seq<RawLog>)
    ensures RawKeys(a + b) == RawKeys(a) + RawKeys(b)
  {
    assert forall i :: 0 <= i < |a| ==> (a + b)[i] == a[i];
    assert forall i :: |a| <= i < |a| + |b| ==> (a + b)[i] == b[i - |a|];
  }

  lemma KeysAppend(a: seq<LogRecord>, b: seq<LogRecord>)
    ensures Keys(a + b) == Keys(a) + Keys(b)
  {
    assert forall i :: 0 <= i < |a| ==> (a + b)[i] == a[i];
    assert forall i :: |a| <= i < |a| + |b| ==> (a + b)[i] == b[i - |a|];
  }

  /** The groups of the given formats, concatenated in that order. */
  function GroupsConcat(raws: seq<RawLog>, order: seq<LogFormat>): seq<RawLog>
    decreases |order|
  {
    if order == [] then [] else GroupsConcat(raws, order[..|order| - 1]) + Group(raws, order[|order| - 1])
  }

  /** The logs whose format is among the given ones, in input order. */
  function FilterIn(raws: seq<RawLog>, formats: seq<LogFormat>): seq<RawLog>
  {
    if raws == [] then []
    else (if raws[0].format in formats then [raws[0]] else []) + FilterIn(raws[1..], formats)
  }

  /** Processing a group keeps each log's content and format, position by position. */
  lemma ProcessGroupKeys(group: seq<RawLog>, strategy: Option<Strategy>, appId: string, endpointId: string, now: Instant)
    requires ProcessGroup(group, strategy, appId, endpointId, now).Ok?
    ensures Keys(ProcessGroup(group, strategy, appId, endpointId, now).value) == RawKeys(group)
  {
    var rs := ProcessGroup(group, strategy, appId, endpointId, now).value;
    forall i | 0 <= i < |group|
      ensures rs[i].content == group[i].content && rs[i].format == group[i].format
    {
      var base := Base(group[i], appId, endpointId, now);
      if strategy.Some? && strategy.value.supportsBatch {
        var out := strategy.value.processBatch(Bases(group, appId, endpointId, now));
        EditsKeepIdentityAndFailure(base, BatchEdits(out, i));
      } else {
        PreprocessOutcome(group[i], strategy, appId, endpointId, now);
      }
    }
  }

  lemma {:induction false} BatchSpecKeys(raws: seq<RawLog>, strategies: LogFormat -> Option<Strategy>,
                                         order: seq<LogFormat>, appId: string, endpointId: string, now: Instant)
    requires BatchSpec(raws, strategies, order, appId, endpointId, now).Ok?
    ensures Keys(BatchSpec(raws, strategies, order, appId, endpointId, now).value) == RawKeys(GroupsConcat(raws, order))
    decreases |order|
  {
    if order != [] {
      var init := order[..|order| - 1];
      var f := order[|order| - 1];
      BatchSpecKeys(raws, strategies, init, appId, endpointId, now);
      var prev := BatchSpec(raws, strategies, init, appId, endpointId, now).value;
      var group := Group(raws, f);
      if group != [] {
        ProcessGroupKeys(group, strategies(f), appId, endpointId, now);
        var g := ProcessGroup(group, strategies(f), appId, endpointId, now).value;
        KeysAppend(prev, g);
        RawKeysAppend(GroupsConcat(raws, init), group);
      } else {
        assert GroupsConcat(raws, order) == GroupsConcat(raws, init);
      }
    }
  }

  /** One more format splits off its own group from the logs filtered in. */
  lemma {:induction false} FilterInExtend(raws: seq<RawLog>, init: seq<LogFormat>, f: LogFormat)
    requires f !in init
    ensures multiset(RawKeys(FilterIn(raws, init + [f])))
         == multiset(RawKeys(FilterIn(raws, init))) + multiset(RawKeys(Group(raws, f)))
    decreases |raws|
  {
    if raws != [] {
      FilterInExtend(raws[1..], init, f);
      var x := raws[0];
      var a: seq<RawLog> := if x.format in init + [f] then [x] else [];
      var b: seq<RawLog> := if x.format in init then [x] else [];
      var c: seq<RawLog> := if x.format == f then [x] else [];
      RawKeysAppend(a, FilterIn(raws[1..], init + [f]));
      RawKeysAppend(b, FilterIn(raws[1..], init));
      RawKeysAppend(c, Group(raws[1..], f));
      assert multiset(RawKeys(a)) == multiset(RawKeys(b)) + multiset(RawKeys(c));
    }
  }

  lemma {:induction false} GroupsConcatIsFilter(raws: seq<RawLog>, order: seq<LogFormat>)
    requires forall i, j :: 0 <= i < j < |order| ==> order[i] != order[j]
    ensures multiset(RawKeys(GroupsConcat(raws, order))) == multiset(RawKeys(FilterIn(raws, order)))
    decreases |order|
  {
    if order == [] {
      FilterInNone(raws);
    } else {
      var init := order[..|order| - 1];
      var f := order[|order| - 1];
      GroupsConcatIsFilter(raws, init);
      FilterInExtend(raws, init, f);
      assert init + [f] == order;
      RawKeysAppend(GroupsConcat(raws, init), Group(raws, f));
    }
  }

  lemma {:induction false} FilterInNone(raws: seq<RawLog>)
    ensures FilterIn(raws, []) == []
    decreases |raws|
  {
    if raws != [] {
      FilterInNone(raws[1..]);
    }
  }

  lemma {:induction false} FilterInAll(raws: seq<RawLog>, order: seq<LogFormat>)
    requires forall i :: 0 <= i < |raws| ==> raws[i].format in order
    ensures FilterIn(raws, order) == raws
    decreases |raws|
  {
    if raws != [] {
      FilterInAll(raws[1..], order);
      assert [raws[0]] + raws[1..] == raws;
    }
  }

  /**
   * preprocessBatch reorders logs by format but neither loses nor duplicates any: the processed
   * logs' (content, format) pairs are those of the input, as a multiset; each carries the call's
   * application and endpoint.
   */
  lemma BatchIsPermutation(raws: seq<RawLog>, strategies: LogFormat -> Option<Strategy>, order: seq<LogFormat>,
                           appId: string, endpointId: string, now: Instant)
    requires IsFormatOrder(raws, order)
    requires BatchSpec(raws, strategies, order, appId, endpointId, now).Ok?
    ensures multiset(Keys(BatchSpec(raws, strategies, order, appId, endpointId, now).value)) == multiset(RawKeys(raws))
    ensures |BatchSpec(raws, strategies, order, appId, endpointId, now).value| == |raws|
  {
    BatchSpecKeys(raws, strategies, order, appId, endpointId, now);
    GroupsConcatIsFilter(raws, order);
    FilterInAll(raws, order);
    var rs := BatchSpec(raws, strategies, order, appId, endpointId, now).value;
    assert |multiset(Keys(rs))| == |multiset(RawKeys(raws))|;
  }

  /** Every processed log of a batch carries the application and endpoint of the call. */
  lemma {:induction false} BatchCarriesIds(raws: seq<RawLog>, strategies: LogFormat -> Option<Strategy>,
                                           order: seq<LogFormat>, appId: string, endpointId: string, now: Instant)
    requires BatchSpec(raws, strategies, order, appId, endpointId, now).Ok?
    ensures forall r :: r in BatchSpec(raws, strategies, order, appId, endpointId, now).value ==>
              r.appId == appId && r.endpointId == endpointId && r.processTime == now
    decreases |order|
  {
    if order != [] {
      var init := order[..|order| - 1];
      var f := order[|order| - 1];
      BatchCarriesIds(raws, strategies, init, appId, endpointId, now);
      var group := Group(raws, f);
      if group != [] {
        var strategy := strategies(f);
        var g := ProcessGroup(group, strategy, appId, endpointId, now);
        if g.Ok? {
          forall i | 0 <= i < |group|
            ensures g.value[i].appId == appId && g.value[i].endpointId == endpointId && g.value[i].processTime == now
          {
            var base := Base(group[i], appId, endpointId, now);
            if strategy.Some? && strategy.value.supportsBatch {
              EditsKeepIdentityAndFailure(base, BatchEdits(strategy.value.processBatch(Bases(group, appId, endpointId, now)), i));
            } else {
              PreprocessOutcome(group[i], strategy, appId, endpointId, now);
            }
          }
        }
      }
    }
  }

  /** The batch call fails exactly when some present format's batch strategy throws on its group. */
  lemma {:induction false} BatchFailsOnlyByBatchStrategy(raws: seq<RawLog>, strategies: LogFormat -> Option<Strategy>,
                                                         order: seq<LogFormat>, appId: string, endpointId: string, now: Instant)
    ensures BatchSpec(raws, strategies, order, appId, endpointId, now).Err? <==>
      exists i :: 0 <= i < |order| && Group(raws, order[i]) != [] && strategies(order[i]).Some?
        && strategies(order[i]).value.supportsBatch
        && strategies(order[i]).value.processBatch(Bases(Group(raws, order[i]), appId, endpointId, now)).thrown.Some?
    decreases |order|
  {
    if order != [] {
      var init := order[..|order| - 1];
      BatchFailsOnlyByBatchStrategy(raws, strategies, init, appId, endpointId, now);
      assert forall i :: 0 <= i < |init| ==> init[i] == order[i];
    }
  }

  // ---- The service ----

  /** preprocess: builds the log, runs the strategy, and recovers from its exception with a failed log. */
  method Preprocess(raw: RawLog, strategy: Option<Strategy>, appId: string, endpointId: string, now: Instant)
    returns (log: ProcessedLog)
    ensures fresh(log)
    ensures log.State() == PreprocessSpec(raw, strategy, appId, endpointId, now)
  {
    log := new ProcessedLog(raw.content, raw.format, raw.metadata, appId, endpointId, now);
    if strategy.Some? {
      var out := strategy.value.process(log.State());
      if out.thrown.Some? {
        log := new ProcessedLog(raw.content, raw.format, raw.metadata, appId, endpointId, now);
        log.MarkValidationFailed(FailurePrefix + out.thrown.value);
      } else {
        log.ApplyAll(out.edits);
      }
    }
  }

  /** One group of preprocessBatch's loop. */
  method ProcessGroupLogs(group: seq<RawLog>, strategy: Option<Strategy>, appId: string, endpointId: string,
                          now: Instant) returns (r: Result<seq<ProcessedLog>, string>)
    ensures var spec := ProcessGroup(group, strategy, appId, endpointId, now);
      && (r.Err? <==> spec.Err?)
      && (r.Err? ==> r.error == spec.error)
      && (r.Ok? ==> |r.value| == |spec.value|
                    && forall j :: 0 <= j < |r.value| ==> fresh(r.value[j]) && r.value[j].State() == spec.value[j])
  {
    var logs: seq<ProcessedLog> := [];
    if strategy.Some? && strategy.value.supportsBatch {
      var bases := Bases(group, appId, endpointId, now);
      var i := 0;
      while i < |group|
        invariant 0 <= i <= |group| && |logs| == i
        invariant forall j :: 0 <= j < i ==> fresh(logs[j]) && logs[j].State() == bases[j]
        invariant forall j, k :: 0 <= j < k < i ==> logs[j] != logs[k]
      {
        var log := new ProcessedLog(group[i].content, group[i].format, group[i].metadata, appId, endpointId, now);
        logs := logs + [log];
        i := i + 1;
      }
      var out := strategy.value.processBatch(bases);
      if out.thrown.Some? {
        return Err(out.thrown.value);
      }
      i := 0;
      while i < |logs|
        invariant 0 <= i <= |logs|
        invariant forall j :: 0 <= j < |logs| ==> fresh(logs[j])
        invariant forall j :: 0 <= j < i ==> logs[j].State() == ApplyEdits(bases[j], BatchEdits(out, j))
        invariant forall j :: i <= j < |logs| ==> logs[j].State() == bases[j]
      {
        logs[i].ApplyAll(BatchEdits(out, i));
        i := i + 1;
      }
    } else {
      var i := 0;
      while i < |group|
        invariant 0 <= i <= |group| && |logs| == i
        invariant forall j :: 0 <= j < i ==>
          fresh(logs[j]) && logs[j].State() == PreprocessSpec(group[j], strategy, appId, endpointId, now)
      {
        var log := Preprocess(group[i], strategy, appId, endpointId, now);
        logs := logs + [log];
        i := i + 1;
      }
    }
    return Ok(logs);
  }

  /**
   * preprocessBatch: groups the logs by format and processes the groups in the grouping map's
   * iteration order, `order`; an exception from a batch strategy propagates (Err).
   */
  method PreprocessBatch(raws: seq<RawLog>, strategies: LogFormat -> Option<Strategy>, order: seq<LogFormat>,
                         appId: string, endpointId: string, now: Instant) returns (r: Result<seq<ProcessedLog>, string>)
    ensures var spec := BatchSpec(raws, strategies, order, appId, endpointId, now);
      && (r.Err? <==> spec.Err?)
      && (r.Err? ==> r.error == spec.error)
      && (r.Ok? ==> |r.value| == |spec.value|
                    && forall j :: 0 <= j < |r.value| ==> fresh(r.value[j]) && r.value[j].State() == spec.value[j])
  {
    var result: seq<ProcessedLog> := [];
    ghost var done: seq<LogRecord> := [];
    var k := 0;
    while k < |order|
      invariant 0 <= k <= |order|
      invariant BatchSpec(raws, strategies, order[..k], appId, endpointId, now) == Ok(done)
      invariant Realises(result, done)
      invariant forall j :: 0 <= j < |result| ==> fresh(result[j])
    {
      var group := Group(raws, order[k]);
      if group != [] {
        var g := ProcessGroupLogs(group, strategies(order[k]), appId, endpointId, now);
        if g.Err? {
          BatchSpecStepFails(raws, strategies, order, k, done, appId, endpointId, now);
          BatchSpecStaysFailed(raws, strategies, order, k + 1, appId, endpointId, now);
          assert BatchSpec(raws, strategies, order, appId, endpointId, now) == Err(g.error);
          return Err(g.error);
        }
        ghost var gv := ProcessGroup(group, strategies(order[k]), appId, endpointId, now).value;
        BatchSpecStepAppends(raws, strategies, order, k, done, gv, appId, endpointId, now);
        RealisesAppend(result, done, g.value, gv);
        result := result + g.value;
        done := done + gv;
      } else {
        BatchSpecStep(raws, strategies, order, k, appId, endpointId, now);
      }
      k := k + 1;
    }
    assert order[..k] == order;
    ghost var spec := BatchSpec(raws, strategies, order, appId, endpointId, now);
    assert spec == Ok(done);
    r := Ok(result);
    assert Realises(r.value, spec.value);
  }

  /** A prefix that succeeded, followed by a format whose group succeeds, appends that group's records. */
  lemma BatchSpecStepAppends(raws: seq<RawLog>, strategies: LogFormat -> Option<Strategy>, order: seq<LogFormat>, k: nat,
                             done: seq<LogRecord>, gv: seq<LogRecord>, appId: string, endpointId: string, now: Instant)
    requires k < |order|
    requires BatchSpec(raws, strategies, order[..k], appId, endpointId, now) == Ok(done)
    requires Group(raws, order[k]) != []
    requires ProcessGroup(Group(raws, order[k]), strategies(order[k]), appId, endpointId, now) == Ok(gv)
    ensures BatchSpec(raws, strategies, order[..k + 1], appId, endpointId, now) == Ok(done + gv)
  {
    BatchSpecStep(raws, strategies, order, k, appId, endpointId, now);
  }

  /** A prefix that succeeded, followed by a format whose group fails, fails with that group's message. */
  lemma BatchSpecStepFails(raws: seq<RawLog>, strategies: LogFormat -> Option<Strategy>, order: seq<LogFormat>, k: nat,
                           done: seq<LogRecord>, appId: string, endpointId: string, now: Instant)
    requires k < |order|
    requires BatchSpec(raws, strategies, order[..k], appId, endpointId, now) == Ok(done)
    requires Group(raws, order[k]) != []
    requires ProcessGroup(Group(raws, order[k]), strategies(order[k]), appId, endpointId, now).Err?
    ensures BatchSpec(raws, strategies, order[..k + 1], appId, endpointId, now)
         == Err(ProcessGroup(Group(raws, order[k]), strategies(order[k]), appId, endpointId, now).error)
  {
    BatchSpecStep(raws, strategies, order, k, appId, endpointId, now);
  }

  /** The objects hold, position by position, the given states. */
  predicate Realises(objs: seq<ProcessedLog>, states: seq<LogRecord>)
    reads set j | 0 <= j < |objs| :: objs[j]
  {
    |objs| == |states| && forall j :: 0 <= j < |objs| ==> objs[j].State() == states[j]
  }

  lemma RealisesAppend(a: seq<ProcessedLog>, sa: seq<LogRecord>, b: seq<ProcessedLog>, sb: seq<LogRecord>)
    requires Realises(a, sa)
    requires |b| == |sb| && forall j :: 0 <= j < |b| ==> b[j].State() == sb[j]
    ensures Realises(a + b, sa + sb)
  {
    assert forall j :: |a| <= j < |a| + |b| ==> (a + b)[j] == b[j - |a|] && (sa + sb)[j] == sb[j - |a|];
  }

  /** One more format of the order: its group, if present, is appended unless a group failed. */
  lemma BatchSpecStep(raws: seq<RawLog>, strategies: LogFormat -> Option<Strategy>, order: seq<LogFormat>, k: nat,
                      appId: string, endpointId: string, now: Instant)
    requires k < |order|
    ensures BatchSpec(raws, strategies, order[..k + 1], appId, endpointId, now) ==
      var prev := BatchSpec(raws, strategies, order[..k], appId, endpointId, now);
      var group := Group(raws, order[k]);
      if prev.Err? || group == [] then prev
      else
        var g := ProcessGroup(group, strategies(order[k]), appId, endpointId, now);
        if g.Err? then Err(g.error) else Ok(prev.value + g.value)
  {
    assert order[..k + 1][..k] == order[..k];
  }

  /** Once a prefix of the order has failed, so has the whole order, with the same message. */
  lemma {:induction false} BatchSpecStaysFailed(raws: seq<RawLog>, strategies: LogFormat -> Option<Strategy>,
                                                order: seq<LogFormat>, k: nat, appId: string, endpointId: string, now: Instant)
    requires k <= |order|
    requires BatchSpec(raws, strategies, order[..k], appId, endpointId, now).Err?
    ensures BatchSpec(raws, strategies, order, appId, endpointId, now)
         == BatchSpec(raws, strategies, order[..k], appId, endpointId, now)
    decreases |order| - k
  {
    if k < |order| {
      BatchSpecStep(raws, strategies, order, k, appId, endpointId, now);
      BatchSpecStaysFailed(raws, strategies, order, k + 1, appId, endpointId, now);
    } else {
      assert order[..k] == order;
    }
  }

  /** preprocessFromBatch: preprocessBatch on the batch's logs, application and endpoint. */
  method PreprocessFromBatch(batch: LogBatch, strategies: LogFormat -> Option<Strategy>, order: seq<LogFormat>,
                             now: Instant) returns (r: Result<seq<ProcessedLog>, string>)
    ensures var spec := BatchSpec(batch.logs, strategies, order, batch.appId, batch.endpointId, now);
      && (r.Err? <==> spec.Err?)
      && (r.Err? ==> r.error == spec.error)
      && (r.Ok? ==> |r.value| == |spec.value|
                    && forall j :: 0 <= j < |r.value| ==> fresh(r.value[j]) && r.value[j].State() == spec.value[j])
  {
    r := PreprocessBatch(batch.logs, strategies, order, batch.appId, batch.endpointId, now);
  }
}
