/** Failure values shared by the transport modules. */
module Errors {

  datatype Error =
    | PacketParseError
    | PacketHeaderError
    | PacketSizeExceedMTU
    | ReadPacketBufferError
    | IncorrectReliability
    | InvalidOptions

  datatype Result<+T> = Ok(value: T) | Err(error: Error) {
    predicate IsFailure() {
      Err?
    }

    function PropagateFailure<U>(): Result<U>
      requires Err?
    {
      Err(error)
    }

    function Extract(): T
      requires Ok?
    {
      value
    }
  }

  datatype Option<+T> = None | Some(value: T)
}
