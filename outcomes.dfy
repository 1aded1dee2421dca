/** Failure values shared by the Gmail client and the ingestion pipeline.

    The Python code signals failure by raising and re-raising exceptions
    unchanged (`raise e`); here every operation returns a `Result` whose
    `Err` carries the exception the source would have raised. */
module Outcomes {

  datatype Option<+T> = None | Some(value: T) {
    /** `dict.get(key, default)`: the value when present, the default when not. */
    function GetOr(default: T): T {
      match this
      case Some(v) => v
      case None => default
    }
  }

  /** Why pydantic refused one field of a record. */
  datatype FieldProblem = Missing | WrongType

  /** The exceptions of the modelled core. */
  datatype Error =
      /** gmail.py: `ValueError("Service account JSON file not found. ...")` */
    | MissingCredentialPath
      /** gmail.py: `ValueError("Failed to refresh token: ...")` for the impersonated user */
    | AuthError(user: string, cause: string)
      /** httpx `HTTPStatusError` from `raise_for_status` on a non-2xx status */
    | HttpStatusError(status: int)
      /** any other httpx exception while sending (timeout, connection reset, ...) */
    | TransportError(reason: string)
      /** httpx refuses to send on a client that `aclose` has closed */
    | ClientClosed
      /** pydantic `ValidationError`; `loc` is the path of wire names to the field */
    | ValidationError(loc: seq<string>, problem: FieldProblem)
      /** base64, UTF-8 or JSON decoding of the notification data failed */
    | UndecodableData
      /** `PubSubMessageData(**data_json)` on a JSON value that is not an object */
    | NotAnObject
      /** `msg_summary["message"]["id"]` on a history entry lacking that key */
    | MissingKey(key: string)

  datatype Result<+T> = Ok(value: T) | Err(error: Error) {
    predicate IsFailure() {
      Err?
    }

    function PropagateFailure<U>(): Result<U>
      requires Err?
    {
      Err(error)
    }

    function Extract(): T
      requires Ok?
    {
      value
    }
  }
}
