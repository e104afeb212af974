/** Option and Result types shared by every module of the model.
    `Result` carries the message of the source's `anyhow::Error`. */
module Wrappers {

  datatype Option<+T> = None | Some(value: T) {
    function GetOr(default: T): T {
      match this
      case Some(v) => v
      case None => default
    }
  }

  datatype Result<+T> = Ok(value: T) | Err(msg: string)

  /** The `()` of a `Result<()>`. */
  datatype Unit = Unit
}
