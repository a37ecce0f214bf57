/**
 * Failure-carrying datatypes shared by every module of the model.
 *
 * The system raises Python exceptions (and, on the TypeScript client, JavaScript
 * errors); the model returns them as values. `Error` names the exception kind
 * and keeps the message where the source's callers branch on it.
 */
module Wrappers {

  datatype Option<+T> = None | Some(value: T) {
    predicate IsFailure() { None? }

    function PropagateFailure<U>(): Option<U>
      requires None?
    {
      None
    }

    function Extract(): T
      requires Some?
    {
      value
    }
  }

  /** The exception kinds the source raises or catches. */
  datatype Error =
    | ValueError(msg: string)
    | KeyError(key: string)
    | TypeError(msg: string)
    | AttributeError(msg: string)
    | AssertionError
    | FileNotFoundError(msg: string)
    | PermissionError(msg: string)
    | IOError(msg: string)
    | OverflowError(msg: string)
    | Exception(msg: string)
    | JsException(msg: string)
    | UnexpectedStatus(code: int)
    | RequiredError(param: string)
    | ApiException(code: int, msg: string)

  datatype Result<+T> = Ok(value: T) | Err(error: Error) {
    predicate IsFailure() { Err? }

    function PropagateFailure<U>(): Result<U>
      requires Err?
    {
      Err(error)
    }

    function Extract(): T
      requires Ok?
    {
      value
    }
  }

  /** An optional field of a generated model: attrs' UNSET sentinel or a value. */
  datatype Field<+T> = Unset | Given(value: T)

  /**
   * A JavaScript argument that may be `undefined`, `null` or defined.
   */
  datatype Maybe<+T> = Undefined | Null | Defined(value: T)
}
