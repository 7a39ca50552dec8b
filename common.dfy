/** Values shared by the two slices, the request layer and the views. */
module Common {

  /** A nullable value: JavaScript's `null`/`undefined` or a present value. */
  datatype Option<+T> = None | Some(value: T)

  /** JavaScript truthiness of a nullable string: `null`, `undefined` and `""` are falsy. */
  predicate Truthy(s: Option<string>)
  {
    s.Some? && s.value != ""
  }

  /** The value a failed thunk hands to `rejectWithValue`: a response status, or the text "Unknown error". */
  datatype RejectValue = HttpStatus(code: int) | UnknownError

  /** The outcome of one awaited GET: the response body, or a thrown error that carries the status of the
      response when one arrived. */
  datatype HttpOutcome<T> = Response(data: T) | Failure(status: Option<int>)

  /** `err.response?.status || "Unknown error"`: a missing response and the falsy status 0 both give the text. */
  function RejectionValue(status: Option<int>): (r: RejectValue)
    ensures r.HttpStatus? <==> status.Some? && status.value != 0
    ensures r.HttpStatus? ==> status == Some(r.code)
  {
    if status.Some? && status.value != 0 then HttpStatus(status.value) else UnknownError
  }

  /** JavaScript truthiness of a slice's `error` cell: `null` and the number 0 are falsy, any text here is not. */
  predicate ErrorTruthy(e: Option<RejectValue>)
  {
    e.Some? && (e.value.HttpStatus? ==> e.value.code != 0)
  }

  /** Whatever the failure, the stored rejection value is truthy, so a view that tests `if (error)` sees it. */
  lemma RejectionValueIsTruthy(status: Option<int>)
    ensures ErrorTruthy(Some(RejectionValue(status)))
  {
  }
}
