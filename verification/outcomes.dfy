/**
 * The two ways a traversal can fail, and the result type that carries them.
 * A failure aborts the whole call: no partial result is ever returned.
 */
module Outcomes {
  import opened Paths

  datatype Error =
      /** `readdir` rejected this path (missing, not a directory, unreadable). */
    | ListingFailed(path: Path)
      /** `new RegExp(pattern, 'i')` threw: the pattern is not a valid regular expression. */
    | InvalidPattern(pattern: string)

  datatype Result<T> = Ok(value: T) | Err(error: Error)

  datatype Option<T> = None | Some(value: T)
}
