/** Values shared by the login wizard, the dashboard session and the bottom navigation. */
module Common {

  /** A value that may be absent: JavaScript's `null`/`undefined` on the one hand, a value on the other. */
  datatype Option<+T> = None | Some(value: T) {
    /** The value, or `default` when absent (the `x || default` idiom on a value that is never falsy). */
    function GetOr(default: T): T {
      match this
      case Some(v) => v
      case None => default
    }
  }

  /** The two roles a verified user can hold. The dashboard's `'none'` is `None` of `Option<Role>`. */
  datatype Role = Admin | Guest
}
