/** Stands for a value that may be missing: Python's `None` in place of a
    string, or a session key that has not been assigned yet. */
module Options {

  datatype Option<+T> = None | Some(value: T) {

    /** The held value if there is one, else `fallback`; for a string or
        `None` with fallback `""` this is Python's `x or ""`. */
    function GetOr(fallback: T): T {
      if Some? then value else fallback
    }
  }
}
