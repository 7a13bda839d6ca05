/** Failure-carrying values and scalar types shared by every module of the model. */
module Wrappers {

  /** A value that may be absent: SQL NULL, a missing row, JavaScript `null`/`undefined`. */
  datatype Option<+T> = None | Some(value: T)

  /** The outcome of an operation that can raise: the value, or the message of the `Error` raised. */
  datatype Result<+T> = Ok(value: T) | Err(message: string)

  /** A timestamp, already cast by PostgreSQL (milliseconds since the epoch). */
  type Time = int

  /** A `users.id` value (SERIAL, hence positive when it names a row). */
  type UserId = nat

  /** A geography point, `ST_MakePoint(longitude, latitude)`. */
  datatype Point = Point(longitude: real, latitude: real)

  function Min(a: int, b: int): int { if a <= b then a else b }

  function Max(a: int, b: int): int { if a >= b then a else b }
}
