/** The failures the bot can raise, as values instead of Python exceptions.

    The names follow the exception classes the script raises: the four of its
    own (StatusCodeError, StatusError, APIResponseException,
    RequestExceptionError) and the two built-in ones it raises or provokes
    (TypeError, KeyError). Where one class is raised for more than one reason,
    a cause tag says which check fired, so that contracts can state the order
    in which the checks run.
 */
module Exceptions {

  datatype Option<+T> = None | Some(value: T)

  /** Why a TypeError was raised. */
  datatype TypeCause =
    | NotADict          // check_response: the decoded payload is not a dict
    | NotIterable       // `key in x` where x is None, a bool or an int
    | NotSubscriptable  // `x[key]` where x is None, a bool or an int
    | NonIntegerIndex   // `x[key]` where x is a list or a str
    | Unhashable        // `x in HOMEWORK_STATUSES` where x is a list or a dict

  /** Why a StatusError was raised. */
  datatype StatusCause =
    | NameIsNone        // homework_name is null
    | Undocumented      // status is not a key of the verdict table

  datatype Error =
    | TypeError(typeCause: TypeCause)
    | KeyError
    | APIResponseException
    | StatusError(statusCause: StatusCause)
    | StatusCodeError(code: int)
    | RequestExceptionError
    | UndecodableBody   // the body of a 200 answer is not JSON

  /** A value or the error that replaced it; usable with `:-`. */
  datatype Result<+T> = Ok(value: T) | Err(error: Error) {
    predicate IsFailure() {
      Err?
    }

    function PropagateFailure<U>(): Result<U>
      requires Err?
    {
      Err(error)
    }

    function Extract(): T
      requires Ok?
    {
      value
    }
  }
}
