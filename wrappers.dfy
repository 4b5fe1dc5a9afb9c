/** Optional values and the three-state optional fields of the request schemas. */
module Wrappers {

  datatype Option<+T> = None | Some(value: T) {

    /** The value, or `default` when there is none (JavaScript's `??`). */
    function GetOr(default: T): T {
      match this
      case Some(v) => v
      case None => default
    }
  }

  /**
   * A schema field declared `.optional().nullable()`: the key may be missing
   * (`undefined`), explicitly `null`, or carry a value.  The distinction matters
   * where an update passes the field straight through: the database layer leaves a
   * column alone for `undefined` and clears it for `null`.
   */
  datatype Field<+T> = Absent | Null | Present(value: T) {

    /** `field ?? null`: both missing and null become no value. */
    function OrNull(): Option<T> {
      match this
      case Present(v) => Some(v)
      case _ => None
    }

    /**
     * The column after an update writes this field over `current`: a missing
     * field leaves the column alone, null clears it.
     */
    function Over(current: Option<T>): Option<T>
    {
      match this
      case Absent => current
      case Null => None
      case Present(v) => Some(v)
    }

    /** `field ?? default`. */
    function OrElse(default: T): T {
      match this
      case Present(v) => v
      case _ => default
    }
  }
}
