/** The result of a parser that may fail: `None` stands for JavaScript's `NaN`
    (or an absent form field), `Some(v)` for a parsed number. */
module Options {

  datatype Option<+T> = None | Some(value: T) {

    /** The value, or `default` when there is none: the `x || 0` idiom of the
        source for a parse result that is never the number 0 when `None`. */
    function GetOr(default: T): (r: T)
      ensures Some? ==> r == value
      ensures None? ==> r == default
    {
      match this
      case Some(v) => v
      case None => default
    }
  }
}
