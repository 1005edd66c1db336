/** The client's view of one HTTP exchange through its axios instance, and the
    observable effects a handler produces (requests, toasts, navigations). */
module Http {
  import opened Js

  datatype Verb = Get | Post | Put | Delete

  datatype Response = Response(status: int, data: Json)

  /** An axios rejection: `error.code`, `error.message` ("" when absent) and
      `error.response`, which is missing when no response arrived at all. */
  datatype HttpError = HttpError(code: string, message: string, response: Option<Response>)

  /** An exception thrown inside a handler's `try` before any request went
      out (a `TypeError`, say): the `catch` sees only its `message`. */
  function Thrown(message: string): (e: HttpError)
    ensures e.response == None && e.message == message && e.code == ""
  {
    HttpError("", message, None)
  }

  /** How an awaited request settled. axios resolves 2xx responses (`Ok`) and
      rejects everything else, timeouts and network failures (`Failed`). */
  datatype Outcome = Ok(response: Response) | Failed(error: HttpError)

  datatype Level = Success | Error | Warning | Info

  /** What a handler does that the outside world can see, in order. */
  datatype Event =
    | Request(verb: Verb, path: string, payload: Json)
    | Toast(level: Level, text: Json)
    | Navigate(to: string)

  /** A toast whose text is a string literal. */
  function Say(level: Level, text: string): Event {
    Toast(level, JStr(text))
  }

  /** `error.response?.data`. */
  function ErrorData(e: HttpError): Json {
    if e.response.Some? then e.response.value.data else JUndefined
  }

  /** The value of `a || b || ... || last`: the first truthy operand, or the
      last operand when none is truthy. */
  function FirstTruthy(xs: seq<Json>): (r: Json)
    requires xs != []
    ensures r in xs
    ensures Truthy(r) <==> exists i :: 0 <= i < |xs| && Truthy(xs[i])
  {
    if |xs| == 1 || Truthy(xs[0]) then xs[0] else FirstTruthy(xs[1..])
  }

  /** The message a failed call surfaces: `error.response?.data?.message ||
      error.response?.data?.error || error.message || fallback`. */
  function ErrorText(e: HttpError, fallback: string): (r: Json)
    requires fallback != ""
    ensures Truthy(r)
    ensures Truthy(OptGet(ErrorData(e), "message")) ==> r == OptGet(ErrorData(e), "message")
    ensures (!Truthy(OptGet(ErrorData(e), "message")) && Truthy(OptGet(ErrorData(e), "error")))
            ==> r == OptGet(ErrorData(e), "error")
    ensures (!Truthy(OptGet(ErrorData(e), "message")) && !Truthy(OptGet(ErrorData(e), "error")))
            ==> r == JStr(if e.message != "" then e.message else fallback)
  {
    var message := OptGet(ErrorData(e), "message");
    var error := OptGet(ErrorData(e), "error");
    if Truthy(message) then message
    else if Truthy(error) then error
    else if e.message != "" then JStr(e.message)
    else JStr(fallback)
  }

  /** The fallback chain is the `||` chain of its four operands. */
  lemma ErrorTextIsFirstTruthy(e: HttpError, fallback: string)
    requires fallback != ""
    ensures ErrorText(e, fallback)
            == FirstTruthy([OptGet(ErrorData(e), "message"), OptGet(ErrorData(e), "error"),
                            JStr(e.message), JStr(fallback)])
  {
    var xs := [OptGet(ErrorData(e), "message"), OptGet(ErrorData(e), "error"),
               JStr(e.message), JStr(fallback)];
    var t1 := xs[1..];
    var t2 := t1[1..];
    var t3 := t2[1..];
    assert t3 == [JStr(fallback)];
    assert FirstTruthy(t2) == if Truthy(t2[0]) then t2[0] else FirstTruthy(t3);
    assert FirstTruthy(t1) == if Truthy(t1[0]) then t1[0] else FirstTruthy(t2);
    assert FirstTruthy(xs) == if Truthy(xs[0]) then xs[0] else FirstTruthy(t1);
  }

  /** `error.response?.data?.message || fallback`. */
  function ServerMessageOr(e: HttpError, fallback: string): (r: Json)
    requires fallback != ""
    ensures Truthy(r)
    ensures r == FirstTruthy([OptGet(ErrorData(e), "message"), JStr(fallback)])
  {
    var message := OptGet(ErrorData(e), "message");
    if Truthy(message) then message else JStr(fallback)
  }
}
