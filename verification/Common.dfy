/** Small shared definitions. */
module Common {

  datatype Option<+T> = None | Some(value: T)

  type Name = string

  /** One field of a merge patch: sent only if the sender changed it. */
  function Pick<T(==)>(before: T, local: T, current: T): T {
    if local == before then current else local
  }
}
