/** The Python values that flow through promises: results, tuples, lists and errors. */
module Values {
  import opened Wrappers
  import opened Errors

  datatype Val =
    | VNone
    | VBool(b: bool)
    | VInt(i: int)
    | VStr(s: string)
    | VTuple(items: seq<Val>)
    | VList(items: seq<Val>)
    | VError(error: Error)

  /** An optional error as the value a callback receives (`None` when absent). */
  function ErrorValue(e: Option<Error>): (v: Val)
    ensures e.None? <==> v == VNone
    ensures e.Some? ==> v == VError(e.value)
  {
    if e.None? then VNone else VError(e.value)
  }

  /** What a call to user code did: returned a value or raised. */
  datatype Outcome = Returns(value: Val) | Raises(error: Error)
}
