/** Vocabulary shared by the indexer state store and the Kafka write handle:
    the errors they raise, the result wrappers that carry them, and the rows
    the status and hot_block tables hold. */
module Base {

  datatype Option<+T> = None | Some(value: T)

  /** Every failure the core can raise, by kind. JavaScript exceptions become values. */
  datatype Error =
    | AssertFailed(message: string)          // an AssertionError from node's `assert` / `assert.strictEqual`
    | SerializationConflict                  // a store error carrying SQLSTATE 40001
    | ProducerError(message: string)         // the error handed to the callback of `producer.send`
    | NotImplemented                         // `new Error('Method not implemented.')`
    | Thrown(code: string, message: string)  // any other error, e.g. one thrown by the processing callback

  /** The SQLSTATE a serialization failure carries. */
  const SerializationFailureCode := "40001"

  /** The `code` property of an error; "" where the error has none. */
  function Code(e: Error): string
  {
    match e
    case AssertFailed(_) => "ERR_ASSERTION"
    case SerializationConflict => SerializationFailureCode
    case ProducerError(_) => ""
    case NotImplemented => ""
    case Thrown(code, _) => code
  }

  /** The retry loop of the coordinator retries exactly the errors with code '40001'. */
  predicate Retryable(e: Error)
  {
    Code(e) == SerializationFailureCode
  }

  /** Only a serialization conflict, or a thrown error that carries code '40001' itself, is
      retried: the failed assertions, the race assertion among them, never are. */
  lemma RetryableErrors(e: Error)
    ensures Retryable(e) <==> e == SerializationConflict || (e.Thrown? && e.code == SerializationFailureCode)
    ensures e.AssertFailed? ==> !Retryable(e)
  {
  }

  datatype Result<+T> = Ok(value: T) | Err(error: Error)

  datatype Outcome = Pass | Fail(error: Error)

  // The messages of the assertions in the state store. For an `assert` written
  // without a message, node generates a message around the asserted expression
  // ("The expression evaluated to a falsy value: ..."); the constants stand in for
  // that message and keep only the quoted expression.
  const RaceMsg := "race condition detected: status update failed"
  const ChainMsg := "blocks must form a continues chain"
  const NotConnectedMsg := "not connected"
  const AlreadyConnectedMsg := "already connected"
  const StatusCountMsg := "status.length == 1"
  const SafeHeightMsg := "Number.isSafeInteger(height)"
  const HeightMatchMsg := "state.height === prev.height"
  const HeightIncreaseMsg := "prev.height < next.height"
  const HashChangeMsg := "prev.hash != next.hash"

  /** A block reference: what the processor calls HashAndHeight. */
  datatype HashAndHeight = HashAndHeight(height: int, hash: string)

  /** One row of the status table. Only the row with id 0 is ever read or written. */
  datatype StatusRow = StatusRow(id: int, height: int, hash: string, nonce: int)

  /** The snapshot a state read returns: the status row and the hot blocks ordered by height. */
  datatype DatabaseState = DatabaseState(height: int, hash: string, nonce: int, top: seq<HashAndHeight>)

  /** What the caller of `transact` claims: the head it built on and the head it commits. */
  datatype FinalTxInfo = FinalTxInfo(prevHead: HashAndHeight, nextHead: HashAndHeight)

  datatype IsolationLevel = ReadUncommitted | ReadCommitted | RepeatableRead | Serializable
}
