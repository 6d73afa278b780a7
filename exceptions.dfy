/** The errors the core can raise: the library's own exception classes and the
    built-in Python exceptions its dict and string operations can raise. */
module Exceptions {
  import opened Json

  datatype Error =
    // HPOneViewUnknownType(message)
    | UnknownType(message: string)
    // HPOneViewInvalidResource, raised with a message naming the offending task type;
    // the model keeps that type value itself
    | InvalidResource(taskType: Json)
    // HPOneViewTaskError(msg, error_code): reason is the message value; errorCode is JNull for None
    | TaskError(reason: Json, errorCode: Json)
    // HPOneViewTimeout(message)
    | Timeout(message: string)
    // KeyError(key): a dict subscript with a missing key
    | KeyError(key: Json)
    // TypeError: an operation applied to a value of the wrong kind (`'k' in 5`, `'abc'['k']`, `len(None)`)
    | TypeError
    // AttributeError: a method the value does not have (`[].get`, `5 .startswith`)
    | AttributeError
  {
    /** One of the library's own exception classes, as opposed to a built-in Python exception. */
    predicate IsLibraryError()
    {
      UnknownType? || InvalidResource? || TaskError? || Timeout?
    }
  }

  /** The outcome of an operation that may raise. */
  datatype Result<+T> = Ok(value: T) | Err(error: Error)
  {
    predicate IsFailure()
    {
      Err?
    }

    function PropagateFailure<U>(): Result<U>
      requires Err?
    {
      Err(error)
    }

    function Extract(): T
      requires Ok?
    {
      value
    }
  }
}
