/**
 * Shared result types of the service layer.
 *
 * Every service method of the backend returns either a value or a business
 * error made of an error code and a message. The codes are the ones of the
 * backend's utils package; the messages are English renderings of the
 * messages the services build.
 */
module Common {

  datatype Option<+T> = None | Some(value: T)

  /** The error codes the services use (utils.ERROR_*). */
  datatype Code = Param | Server | NotFound | Forbidden | Business | Auth | Database

  datatype Error = Error(code: Code, message: string)

  datatype Result<+T> = Ok(value: T) | Err(error: Error)

  /** A result that carries no value, for the services that return only `error`. */
  datatype Unit = Unit

  /** What an update of a loaded record leaves behind: the answer the service
      returns and the record's fields afterwards, which an early error leaves
      partly assigned. */
  datatype Outcome<+T> = Outcome(result: Result<T>, state: T)

  function Fail<T>(code: Code, message: string): Result<T>
  {
    Err(Error(code, message))
  }
}
