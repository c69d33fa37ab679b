/** Values shared by every part of the model: optional values, results, what JavaScript code
    throws, and how a call into the hosted generative-AI SDK settles. */
module Common {

  datatype Option<+T> = None | Some(value: T)

  datatype Result<+T, +E> = Success(value: T) | Failure(error: E)

  /** A value caught by a `catch` clause: an `Error` object carrying its message, or
      anything else that was thrown or rejected (a FileReader progress event, say). */
  datatype Thrown = Error(message: string) | NonError

  /** How an awaited SDK call settles: with a value, or by throwing. */
  datatype Reply<+T> = Replied(value: T) | Threw(thrown: Thrown)

  /** The speaker of a conversation turn, `'user' | 'model'`. */
  datatype Role = User | Model

  /** The message a `catch` clause shows: `e instanceof Error ? e.message : fallback`. */
  function Describe(e: Thrown, fallback: string): string
  {
    match e
    case Error(m) => m
    case NonError => fallback
  }

  /** JavaScript truthiness of an optional string: `undefined` and `''` are falsy. */
  predicate Truthy(s: Option<string>)
  {
    s.Some? && s.value != ""
  }
}
