/**
 * `ErrorHandler`: the last middleware, which turns an error handed to
 * `next` into a response. Logging and the development-only stack trace are
 * not modelled.
 */
module ErrorHandler {
  import opened Wrappers
  import UserModel

  /**
   * The fields of a thrown error the handler reads. A falsy `status` (absent
   * or 0) is `None` or `Some(0)`; `errors` is what a `ValidationError` carries.
   */
  datatype Error<E> = Error(name: string, message: string, code: Option<string>, status: Option<int>,
                            errors: Option<E>, detail: Option<string>)

  datatype Reply<E> = Reply(status: int, message: string, errors: Option<E>, detail: Option<string>)

  const DefaultMessage := "Internal Server Error"
  const UniqueViolation := "23505"

  /** `new Error(message)`: the name `Error` and nothing else set. */
  function Plain<E>(message: string): Error<E> {
    Error("Error", message, None, None, None, None)
  }

  /** `err.status || 500`. */
  function StatusOr500(status: Option<int>): int {
    if status.None? || status.value == 0 then 500 else status.value
  }

  /**
   * The handler: a validation error is a 400 with its errors, an
   * authorisation error a 401, a database unique violation a 409 with the
   * detail, and anything else its own status (500 when falsy) with its own
   * message (the default when empty).
   */
  function Handle<E>(err: Error<E>): (r: Reply<E>)
    ensures err.name == "ValidationError" ==> r == Reply(400, "Validation Error", err.errors, None)
    ensures err.name == "UnauthorizedError" ==> r == Reply(401, "Unauthorized: Invalid or expired token", None, None)
    ensures err.name != "ValidationError" && err.name != "UnauthorizedError" && err.code == Some(UniqueViolation) ==>
      r == Reply(409, "Duplicate key error", None, err.detail)
    ensures err.name != "ValidationError" && err.name != "UnauthorizedError" && err.code != Some(UniqueViolation) ==>
      && r.status == StatusOr500(err.status) && r.errors.None? && r.detail.None?
      && r.message == (if err.message == "" then DefaultMessage else err.message)
    ensures r.message != ""
  {
    if err.name == "ValidationError" then Reply(400, "Validation Error", err.errors, None)
    else if err.name == "UnauthorizedError" then Reply(401, "Unauthorized: Invalid or expired token", None, None)
    else if err.code == Some(UniqueViolation) then Reply(409, "Duplicate key error", None, err.detail)
    else Reply(StatusOr500(err.status), if err.message == "" then DefaultMessage else err.message, None, None)
  }

  /** The answer is an error status whenever the error's own status is absent or one. */
  lemma ErrorStatusKept<E>(err: Error<E>)
    requires err.status.None? || err.status.value == 0 || 400 <= err.status.value <= 599
    ensures 400 <= Handle(err).status <= 599
    ensures err.code != Some(UniqueViolation) && err.status.Some? && err.status.value != 0
            && err.name != "ValidationError" && err.name != "UnauthorizedError" ==>
      Handle(err).status == err.status.value
  {
  }

  /**
   * Any truthy status a plain error carries is handed to `res.status` as it is,
   * even one that is not an error status.
   */
  lemma NonErrorStatusPassesThrough<E>(message: string, status: int)
    requires status != 0
    ensures Handle<E>(Error("Error", message, None, Some(status), None, None)).status == status
  {
  }

  /**
   * The model rethrows a unique violation on users as a plain error, so a
   * duplicate registration is answered 500 with that message, not 409.
   */
  lemma DuplicateUserIs500<E>()
    ensures Handle(Plain<E>(UserModel.DuplicateUser)) == Reply(500, UserModel.DuplicateUser, None, None)
    ensures Handle<E>(Error("error", "duplicate key value", Some(UniqueViolation), None, None, Some("Key exists")))
              == Reply(409, "Duplicate key error", None, Some("Key exists"))
  {
  }

  /** Any plain error raised by the model is a 500 that carries its message (or the default one). */
  lemma PlainErrorIs500<E>(message: string)
    ensures Handle(Plain<E>(message)).status == 500
    ensures Handle(Plain<E>(message)).message == (if message == "" then DefaultMessage else message)
  {
  }
}
