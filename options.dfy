/** Optional values, and the truthiness test the handlers apply to optional text. */
module Options {

  datatype Option<+T> = None | Some(value: T)

  /**
   * A request parameter, body field or environment variable fails a
   * JavaScript `!x` test when it is absent (null or undefined) or the empty
   * string.
   */
  predicate IsBlank(x: Option<string>)
    ensures IsBlank(x) <==> x == None || x == Some("")
  {
    x.None? || x.value == ""
  }
}
