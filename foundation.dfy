/** Stand-ins for the few Swift and Foundation types the model needs:
    Swift's `Optional`, `UUID` identities and `Date` instants. */
module Foundation {

  /** Swift's `Optional`: `None` is `nil`. */
  datatype Option<+T> = None | Some(value: T)

  /** A `UUID` is only ever compared for equality, so any type with equality will do. */
  type Uuid = nat

  /** A `Date` is an instant, counted in whole seconds. */
  type Date = int

  const SecondsPerDay: int := 86400
}
