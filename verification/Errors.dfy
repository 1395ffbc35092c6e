/** The library's own faults, and results that may carry one. */
module Errors {
  datatype Errc =
    | Truncated | IndefiniteLength | LengthTooLarge | HighTagNumber | UnexpectedTag | TrailingData | ReservedLength
    | EmptyContent | IntegerTooLarge | BadIpAddress | BadNull
    | OidEmpty | OidTooLong | OidSubidOverflow | OidNonMinimal | OidTruncatedSubid | OidNotEncodable
    | UnknownValueTag
    | BadVersion | UnexpectedPduType | MissingVarbind
    | Timeout | ClientStopped | NonIncreasingOid | WalkIncomplete
    | UnsupportedAuthProtocol | UnsupportedSecurityLevel | UnsupportedPrivProtocol | LegacyProviderUnavailable
    | UnsupportedSecurityModel | BadMessageFlags | EmptyPassword | CryptoFailure | AuthFailed | DecryptionFailed
    | UnknownUserName | UnknownEngineId | NotInTimeWindow | DecryptionError | UnexpectedReport

  datatype Result<+T> = Ok(value: T) | Err(error: Errc) {
    predicate IsFailure() {
      Err?
    }

    function PropagateFailure<U>(): Result<U>
      requires Err?
    {
      Err(error)
    }

    function Extract(): T
      requires Ok?
    {
      value
    }
  }

  /** What an operation completes with: nothing wrong, or a fault in one of the categories a caller can tell apart. */
  datatype ErrorCode =
    | NoError
    | Fault(e: Errc)
    | AgentError(status: int)
    | OperationAborted
    | SystemError(code: int)

  /** The cancellation signals an operation has observed: none, total, or terminal. */
  datatype Cancellation = NotCancelled | Total | Terminal
}
