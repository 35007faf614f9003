/** Failure-carrying wrappers shared by every module of the model. */
module Base {

  /** A value that may be absent: a missing JSON key, a null reference. */
  datatype Option<T> = None | Some(value: T) {
    function GetOr(default: T): T {
      match this
      case Some(v) => v
      case None => default
    }
  }

  /** The outcome of an operation that can raise: `Err` carries what was raised. */
  datatype Result<T, E> = Ok(value: T) | Err(error: E)

  /** Python's `s[i]` on a list: negative indices count from the end, and
      an index outside `-|s| .. |s|-1` raises `IndexError` (here `None`). */
  function PyIndex<T>(s: seq<T>, i: int): (r: Option<T>)
    ensures r.Some? <==> -|s| <= i < |s|
    ensures 0 <= i < |s| ==> r == Some(s[i])
    ensures -|s| <= i < 0 ==> r == Some(s[|s| + i])
  {
    if 0 <= i < |s| then Some(s[i])
    else if -|s| <= i < 0 then Some(s[|s| + i])
    else None
  }
}
