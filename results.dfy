/** Outcomes of the modelled calls: every exception the modelled code can raise
    becomes an `Err`, so that the error paths are part of the model. */
module Results {

  /** The exceptions the modelled code can raise: the typed-array `RangeError`
      is thrown synchronously while the received file is parsed, the others
      reject a Web Crypto promise. */
  datatype Error =
    | RangeError          // a typed-array view that does not fit in its buffer
    | InvalidAccessError  // key algorithm, usage or type does not fit the call; export of a non-extractable key
    | OperationError      // a cipher failed: bad IV length, message too long, bad padding, wrong key
    | DataError           // raw key material of a length the algorithm does not support
    | SyntaxError         // a secret or private key created with no usages
    | NotSupportedError   // a key format the algorithm cannot export

  datatype Option<+T> = None | Some(value: T)

  /** Either the value a promise resolves to or the error it rejects with. */
  datatype Result<+T> = Ok(value: T) | Err(error: Error) {
    predicate IsFailure() { Err? }

    function PropagateFailure<U>(): Result<U>
      requires Err?
    {
      Err(error)
    }

    function Extract(): T
      requires Ok?
    {
      value
    }
  }
}
