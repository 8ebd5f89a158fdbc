/** The optional value of a JavaScript property that may be absent (`undefined`). */
module Options {
  datatype Option<+T> = None | Some(value: T)
  {
    /** `x || d` for a property whose every present value is truthy. */
    function GetOr(default: T): T
    {
      match this
      case Some(v) => v
      case None => default
    }
  }
}
