/** Absence and failure, as the studio's TypeScript expresses them with
    `null`/`undefined` and thrown exceptions. */
module Wrappers {

  /** An optional value: `T | null` or an optional (`?:`) field. */
  datatype Option<+T> = None | Some(value: T)

  /** The settled result of an awaited call: `Ok` when the promise resolved,
      `Err` when it rejected (a network failure, a refused request or a
      `JSON.parse` exception). The error itself is only ever logged, so it
      carries nothing. */
  datatype Outcome<+T> = Ok(value: T) | Err
}
