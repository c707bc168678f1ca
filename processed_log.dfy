// ProcessedLog: a log after preprocessing, which strategies annotate in place.
module ProcessedLogs {
  import opened Wrappers
  import opened Domain
  import Text

  /** What a ProcessedLog exposes through its getters. Structured field values are kept as text. */
  datatype LogRecord = LogRecord(
    content: string,
    format: LogFormat,
    metadata: map<string, string>,
    appId: string,
    endpointId: string,
    processTime: Instant,
    validated: bool,
    validationFailReason: Option<string>,
    structuredFields: map<string, string>)

  /** The constructor's state: metadata copied, validated, no failure reason, no structured fields. */
  function Initial(content: string, format: LogFormat, metadata: map<string, string>,
                   appId: string, endpointId: string, now: Instant): (r: LogRecord)
    ensures r.validated && r.validationFailReason == None && r.structuredFields == map[]
    ensures r.content == content && r.format == format && r.metadata == metadata
  {
    LogRecord(content, format, metadata, appId, endpointId, now, true, None, map[])
  }

  /** One mutation a preprocessing strategy performs through the ProcessedLog API. */
  datatype Edit =
    | MarkValidationFailed(reason: string)
    | UpdateMetadata(newMetadata: map<string, string>)
    | AddMetadata(key: string, value: string)
    | AddStructuredField(key: string, value: string)

  /** The effect of one edit on a log's state. */
  function ApplyEdit(r: LogRecord, e: Edit): LogRecord
  {
    match e
    case MarkValidationFailed(reason) => r.(validated := false, validationFailReason := Some(reason))
    case UpdateMetadata(m) => r.(metadata := m)
    case AddMetadata(k, v) => r.(metadata := r.metadata[k := v])
    case AddStructuredField(k, v) => r.(structuredFields := r.structuredFields[k := v])
  }

  /** The effect of a sequence of edits, first to last. */
  function ApplyEdits(r: LogRecord, es: seq<Edit>): LogRecord
    decreases |es|
  {
    if es == [] then r else ApplyEdits(ApplyEdit(r, es[0]), es[1..])
  }

  /** The fields declared final: no edit can touch them. */
  predicate SameIdentity(a: LogRecord, b: LogRecord)
  {
    a.content == b.content && a.format == b.format && a.appId == b.appId
    && a.endpointId == b.endpointId && a.processTime == b.processTime
  }

  /**
   * Edits never change the final fields, and validation only ever fails: a log that failed
   * validation stays failed, and a log is validated afterwards only if it was before and no
   * edit marked it failed.
   */
  lemma {:induction false} EditsKeepIdentityAndFailure(r: LogRecord, es: seq<Edit>)
    ensures SameIdentity(ApplyEdits(r, es), r)
    ensures ApplyEdits(r, es).validated <==> r.validated && forall i :: 0 <= i < |es| ==> !es[i].MarkValidationFailed?
    decreases |es|
  {
    if es != [] {
      EditsKeepIdentityAndFailure(ApplyEdit(r, es[0]), es[1..]);
      assert forall i :: 1 <= i < |es| ==> es[i] == es[1..][i - 1];
    }
  }

  /** Running two edit lists one after the other is running their concatenation. */
  lemma {:induction false} ApplyEditsAppend(r: LogRecord, es: seq<Edit>, e: Edit)
    ensures ApplyEdits(r, es + [e]) == ApplyEdit(ApplyEdits(r, es), e)
    decreases |es|
  {
    if es == [] {
      assert es + [e] == [e];
      assert [e][1..] == [];
    } else {
      assert (es + [e])[0] == es[0];
      assert (es + [e])[1..] == es[1..] + [e];
      ApplyEditsAppend(ApplyEdit(r, es[0]), es[1..], e);
    }
  }

  /** getClientIp: the "clientIp" metadata entry, or "" when absent. */
  function ClientIp(r: LogRecord): (ip: string)
    ensures "clientIp" in r.metadata ==> ip == r.metadata["clientIp"]
    ensures "clientIp" !in r.metadata ==> ip == ""
  {
    if "clientIp" in r.metadata then r.metadata["clientIp"] else ""
  }

  /** getSize: the UTF-8 length of the content, in bytes. */
  function Size(r: LogRecord): (n: nat)
    ensures |r.content| <= n <= 4 * |r.content|
  {
    Text.Utf8Length(r.content)
  }

  class ProcessedLog {
    const content: string
    const format: LogFormat
    var metadata: map<string, string>
    const appId: string
    const endpointId: string
    const processTime: Instant
    var validated: bool
    var validationFailReason: Option<string>
    var structuredFields: map<string, string>

    function State(): LogRecord
      reads this
    {
      LogRecord(content, format, metadata, appId, endpointId, processTime, validated,
                validationFailReason, structuredFields)
    }

    constructor (content: string, format: LogFormat, metadata: map<string, string>,
                 appId: string, endpointId: string, now: Instant)
      ensures State() == Initial(content, format, metadata, appId, endpointId, now)
    {
      this.content := content;
      this.format := format;
      this.metadata := metadata;
      this.appId := appId;
      this.endpointId := endpointId;
      this.processTime := now;
      this.validated := true;
      this.validationFailReason := None;
      this.structuredFields := map[];
    }

    method MarkValidationFailed(reason: string)
      modifies this`validated, this`validationFailReason
      ensures State() == ApplyEdit(old(State()), Edit.MarkValidationFailed(reason))
      ensures !validated
    {
      validated := false;
      validationFailReason := Some(reason);
    }

    method UpdateMetadata(newMetadata: map<string, string>)
      modifies this`metadata
      ensures State() == ApplyEdit(old(State()), Edit.UpdateMetadata(newMetadata))
    {
      metadata := newMetadata;
    }

    method AddMetadata(key: string, value: string)
      modifies this`metadata
      ensures State() == ApplyEdit(old(State()), Edit.AddMetadata(key, value))
      ensures ClientIp(State()) == if key == "clientIp" then value else ClientIp(old(State()))
    {
      metadata := metadata[key := value];
    }

    method AddStructuredField(key: string, value: string)
      modifies this`structuredFields
      ensures State() == ApplyEdit(old(State()), Edit.AddStructuredField(key, value))
    {
      structuredFields := structuredFields[key := value];
    }

    /** Performs one edit through the matching mutator. */
    method Apply(e: Edit)
      modifies this
      ensures State() == ApplyEdit(old(State()), e)
    {
      match e
      case MarkValidationFailed(reason) => MarkValidationFailed(reason);
      case UpdateMetadata(m) => UpdateMetadata(m);
      case AddMetadata(k, v) => AddMetadata(k, v);
      case AddStructuredField(k, v) => AddStructuredField(k, v);
    }

    /** Performs a strategy's edits in order. */
    method ApplyAll(es: seq<Edit>)
      modifies this
      ensures State() == ApplyEdits(old(State()), es)
    {
      var i := 0;
      while i < |es|
        invariant 0 <= i <= |es|
        invariant State() == ApplyEdits(old(State()), es[..i])
      {
        ApplyEditsAppend(old(State()), es[..i], es[i]);
        assert es[..i + 1] == es[..i] + [es[i]];
        Apply(es[i]);
        i := i + 1;
      }
      assert es[..i] == es;
    }
  }
}
