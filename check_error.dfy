/** The front end's view of a rejected backend command, and `checkError`, which
    looks for a string `msg` field on it. */
module ErrorCheck {
  /** What reading the `msg` property of an object gives. */
  datatype MsgField = StringMsg(text: string) | NonStringMsg

  /** A value a promise can reject with, as far as the front end tells them
      apart: a string, an object (the backend's `ErrorMsg { msg }` is one), or
      `null`/`undefined`. Numbers and booleans behave like objects without a
      string `msg`. */
  datatype JsValue = JsString(s: string) | JsObject(msg: MsgField) | JsNullish

  /** What `checkError(err, handler)` does: call the handler once with the
      message, print a diagnostic, or throw because `err` has no properties. */
  datatype CheckOutcome = Handled(msg: string) | Diagnostic | Thrown

  /** `checkError`. A string has no `msg` property, so it only gets a diagnostic. */
  function CheckError(err: JsValue): (o: CheckOutcome)
    ensures o.Handled? <==> err.JsObject? && err.msg.StringMsg?
    ensures o.Handled? ==> o.msg == err.msg.text
    ensures o.Thrown? <==> err.JsNullish?
  {
    match err
    case JsNullish => Thrown
    case JsObject(StringMsg(m)) => Handled(m)
    case _ => Diagnostic
  }

  /** The messages the handler is called with: none, or exactly the one `msg`. */
  function HandlerCalls(err: JsValue): (calls: seq<string>)
    ensures |calls| <= 1
    ensures |calls| == 1 <==> CheckError(err).Handled?
    ensures forall m :: m in calls ==> err == JsObject(StringMsg(m))
  {
    match CheckError(err)
    case Handled(m) => [m]
    case _ => []
  }

  /** The error object the backend rejects with, `ErrorMsg { msg }`. */
  function BackendRejection(msg: string): JsValue {
    JsObject(StringMsg(msg))
  }

  /** A backend rejection always reaches the handler, with its text unchanged. */
  lemma BackendRejectionHandled(msg: string)
    ensures HandlerCalls(BackendRejection(msg)) == [msg]
  {
  }
}
