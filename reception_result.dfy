// ReceptionResult: what the admission chain answers to a caller.
module ReceptionResults {
  import opened Wrappers

  const AcceptedMessage: string := "接收成功"
  const BufferedMessage: string := "接收成功（已缓冲）"

  datatype ReceptionResult = ReceptionResult(success: bool, message: string, batchId: Option<string>, buffered: bool)

  /** The batch was created: success, not buffered, carrying its id. */
  function Success(batchId: string): (r: ReceptionResult)
    ensures r.success && !r.buffered && HasBatchId(r) && r.batchId.value == batchId
  {
    ReceptionResult(true, AcceptedMessage, Some(batchId), false)
  }

  /** The log went to a buffer: success and buffered, but no batch id yet. */
  function Buffered(): (r: ReceptionResult)
    ensures r.success && r.buffered && !HasBatchId(r)
  {
    ReceptionResult(true, BufferedMessage, None, true)
  }

  /** A rejection: neither success nor buffered, no batch id, the given message. */
  function Failure(message: string): (r: ReceptionResult)
    ensures !r.success && !r.buffered && !HasBatchId(r) && r.message == message
  {
    ReceptionResult(false, message, None, false)
  }

  predicate HasBatchId(r: ReceptionResult)
  {
    r.batchId.Some?
  }

  /** The three factories never produce the same result: (success, buffered) tells them apart. */
  lemma FactoriesDistinct(id: string, message: string)
    ensures Success(id) != Buffered() && Success(id) != Failure(message) && Buffered() != Failure(message)
    ensures Failure(message).success == false
  {
  }
}
