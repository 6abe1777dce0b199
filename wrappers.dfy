/** Optional values and the replies of asynchronous calls. */
module Wrappers {
  /** JavaScript's `undefined`/`null` beside a present value. */
  datatype Option<+T> = None | Some(value: T)

  /** How an awaited call ends: it resolves with a value or rejects with an error. */
  datatype Reply<+T, +E> = Replied(value: T) | Threw(error: E)
}
