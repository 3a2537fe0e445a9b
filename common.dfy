/** Small shared vocabulary: an optional value and the type of user identifiers. */
module Common {

  datatype Option<+T> = None | Some(value: T)

  /** Users are keyed by an opaque identifier that the store generates; the model
      draws identifiers from a counter, so a natural number stands for one. */
  type UserId = nat
}
