/** Option and Result, the two failure-carrying shapes the listener's Rust code uses. */
module Wrappers {

  datatype Option<+T> = None | Some(value: T) {
    /** The contained value, or `default` when there is none (Rust's `unwrap_or`). */
    function GetOr(default: T): T {
      match this
      case Some(v) => v
      case None => default
    }
  }

  /** `Result<T, String>` as the Tauri commands return it. */
  datatype Result<+T> = Ok(value: T) | Err(error: string)
}
