/** Small vocabulary shared by the other modules. */
module Common {

  datatype Option<+T> = None | Some(value: T) {

    function GetOr(default: T): T {
      if None? then default else value
    }

    /** The value itself when there is one, otherwise the alternative (SQL's COALESCE). */
    function OrElse(other: Option<T>): Option<T> {
      if None? then other else this
    }
  }
}
