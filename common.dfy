/** Small shared datatypes: optional values, fallible results and the
    `{"status": ..., "message": ...}` replies the HTTP routes return. */
module Common {

  datatype Option<+T> = None | Some(value: T)

  /** A computation that either yields a value or raises an exception
      (the reason is the exception's message). */
  datatype Result<+T> = Ok(value: T) | Err(reason: string)

  /** A route's JSON reply. `InternalError` stands for an exception that
      escapes the handler (the framework then answers with status 500). */
  datatype Reply = Success(message: string) | Error(message: string) | InternalError

  function Min(a: int, b: int): int { if a <= b then a else b }

  /** Messages and labels that several route modules share. */
  const INVALID_TOKEN: string := "Invalid token"
  const USER_NOT_FOUND: string := "User not found"
  const MODEL_NOT_TRAINED: string := "Model not trained"
  const RELAXING: string := "Relaxing"
  const FOCUSED: string := "Focused"

  /** A character `str.isdigit` accepts, over ASCII. */
  predicate IsAsciiDigit(c: char) {
    '0' <= c <= '9'
  }
}
