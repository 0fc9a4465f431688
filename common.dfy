/** Values shared by the four services: optional values, the "was this
    field sent?" wrapper of a partial update, and the error outcomes a
    handler can end in. */
module Common {

  datatype Option<+T> = None | Some(value: T)

  /** One field of a partial-update body. pydantic's `dict(exclude_unset=True)`
      keeps a field when the client SENT it, whatever its value (an explicit
      `null` is sent), and drops it when the client left it out. */
  datatype Field<+T> = Unset | Set(value: T)

  /** The value a field has after a partial update overlays `f` on `current`. */
  function Overlay<T>(current: T, f: Field<T>): (r: T)
    ensures f.Unset? ==> r == current
    ensures f.Set? ==> r == f.value
  {
    match f
    case Unset => current
    case Set(v) => v
  }

  /** How a request ends when it does not succeed. */
  datatype Error =
    | NotFound         // HTTPException(status_code=404)
    | BadRequest       // HTTPException(status_code=400)
    | ValidationError  // a request-body validator raised ValueError (422)
    | IndexError       // an uncaught Python IndexError (a 500 with no JSON error body)

  datatype Result<+T> = Ok(value: T) | Err(error: Error)
}
