/** Value wrappers shared by the data client and the list screen. */
module Outcomes {

  /** A JavaScript value that may be `undefined`. */
  datatype Option<+T> = None | Some(value: T)

  /** How a promise settles: with a value, or with the reason it was rejected. */
  datatype Settled<+T> = Fulfilled(value: T) | Rejected(reason: string)

  /** JavaScript truthiness of an optional string: absent and "" are falsy. */
  predicate Truthy(s: Option<string>)
  {
    s.Some? && s.value != ""
  }
}
