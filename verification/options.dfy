/** An optional value. The parsers return it, and so does the host's image
    load, which may never complete. The three members below let `:-` stop a
    parser at the first step that finds nothing. */
module Options {

  datatype Option<+T> = None | Some(value: T) {

    /** Nothing was found, so `:-` stops here. */
    predicate IsFailure() {
      None?
    }

    /** Carries "nothing found" over to the result type of the caller. */
    function PropagateFailure<U>(): Option<U>
      requires None?
    {
      None
    }

    /** The value `:-` binds when something was found. */
    function Extract(): T
      requires Some?
    {
      value
    }

    /** The value if present, `default` otherwise. This is how a JavaScript
        default parameter stands in for an argument left `undefined`. */
    function GetOr(default: T): T {
      match this
      case Some(v) => v
      case None => default
    }
  }
}
