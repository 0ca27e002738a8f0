/** Values shared by every part of the bot: optional values and the
    `(string, error)` pair that Go commands return. */
module Outcomes {

  datatype Option<+T> = None | Some(value: T)

  /** A Go `(T, error)` pair where the value is meaningless once the error is set. */
  datatype Result<+T> = Ok(value: T) | Err(msg: string)

  /** A Go `(string, error)` pair: both halves are meaningful (a failing command
      still reports its partial output). `err == None` is Go's `nil`. */
  datatype Reply = Reply(out: string, err: Option<string>)

  /** What Go's `%s` prints for an error value; a nil error prints as `%!s(<nil>)`. */
  function ErrorText(err: Option<string>): string
  {
    match err
    case Some(m) => m
    case None => "%!s(<nil>)"
  }
}
