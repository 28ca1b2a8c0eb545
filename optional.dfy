/**
 * An argument the caller may leave out: Swift's default arguments and
 * `nil`-defaulted optionals, with the value the callee uses in its place.
 */
module Optional {
  datatype Option<T> = None | Some(value: T) {
    /** The argument, or `default` when it was left out. */
    function GetOr(default: T): T {
      match this
      case None => default
      case Some(v) => v
    }
  }
}
