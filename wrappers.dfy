/** Optional values: a PDF page that yields no text, an upload widget that
    holds no file, a prompt that is never sent because its button is hidden. */
module Wrappers {
  datatype Option<+T> = None | Some(value: T) {
    /** The wrapped value, or `default` when there is none (Python's `x or default`). */
    function GetOr(default: T): T {
      match this
      case Some(v) => v
      case None => default
    }
  }
}
