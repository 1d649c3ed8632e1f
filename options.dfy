/** The optional value used wherever the source can produce "nothing": a SQL SUM
    over no rows (NULL), a string that does not parse (NaN), a rate whose
    denominator is zero (Infinity or NaN), a missing editing record (null).
 */
module Options {

  datatype Option<+T> = None | Some(value: T) {

    /** The value, or `default` when there is none (JavaScript's `x || default`
        once NULL and NaN are folded into None). */
    function GetOr(default: T): T {
      match this
      case Some(v) => v
      case None => default
    }
  }
}
