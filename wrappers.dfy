/** Small value wrappers shared by every slice. */
module Wrappers {

  /** A value that may be missing: `null` or `undefined` on the JavaScript side. */
  datatype Option<+T> = None | Some(value: T)

  /** The outcome of one call into an external service, or of one thunk body:
      a value, or the message of the error it threw. */
  datatype Outcome<+T> = Ok(data: T) | Err(msg: string)

  /** The three lifecycle actions an asynchronous thunk dispatches. A rejected
      action carries the thunk's `rejectWithValue` payload, an error message. */
  datatype Phase<+P> = Pending | Fulfilled(payload: P) | Rejected(error: string)

  /** The settling action for a thunk body's outcome. */
  function Settle<P>(o: Outcome<P>): (a: Phase<P>)
    ensures a.Fulfilled? <==> o.Ok?
    ensures o.Ok? ==> a.payload == o.data
    ensures o.Err? ==> a == Rejected(o.msg)
  {
    match o
    case Ok(v) => Fulfilled(v)
    case Err(m) => Rejected(m)
  }
}
