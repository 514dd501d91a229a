/** Option and Result values shared by every module of the model. */
module Wrappers {

  datatype Option<+T> = None | Some(value: T) {

    function GetOr(default: T): T {
      match this
      case Some(v) => v
      case None => default
    }
  }

  /** The exceptions the Python code raises, by the situation that raises them. */
  datatype Error =
    | ValueError        // int() of a non-numeric string, _extract_json giving up
    | NotFound          // scalar_one() on a missing row
    | Conflict          // unique constraint on a payment id
    | HttpError         // a non-200 answer or a failed request to an outside service
    | KeyError          // a missing key read with []
    | ZeroDivision      // `% len(recipes)` on an empty list
    | IndexError        // a list index outside the list
    | TypeError         // a call with an argument the callee does not accept
    | AttributeError    // a method called on a value that lacks it (None, a list)

  datatype Result<+T> = Ok(value: T) | Err(error: Error)

  /** The position `xs[i]` reads in a list of length `len`: negative indices count
      from the end, and anything outside the list is an IndexError. */
  function PyIndex(len: nat, i: int): (r: Option<nat>)
    ensures r.Some? <==> -(len as int) <= i < len
    ensures r.Some? ==> r.value < len && (r.value == i || r.value == len + i)
    ensures 0 <= i < len ==> r == Some(i)
  {
    if 0 <= i < len then Some(i) else if -(len as int) <= i < 0 then Some(len + i) else None
  }
}
