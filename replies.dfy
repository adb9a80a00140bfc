/** What the pages receive from the backend and hand to the browser, as plain values. */
module Replies {

  datatype Option<+T> = None | Some(value: T)

  /** The settled outcome of one request: the response body on success, or a failure
      carrying the error text of the response body if there was one (`err` on the
      shortening endpoints, `message` on the account endpoints). */
  datatype Reply<+T> = Ok(data: T) | Failed(message: Option<string>)

  /** The signed-in user as the backend reports it; the pages only read its name. */
  datatype User = User(name: string)

  /** Where `navigate(...)` sends the browser. */
  datatype Route = LoginRoute | DashboardRoute

  datatype ToastKind = SuccessToast | ErrorToast | InfoToast

  /** The most recent toast raised by a page. */
  datatype Notice = NoNotice | Toast(kind: ToastKind, text: string)

  /** `message || fallback`: the server's text unless it is absent or the empty string. */
  function MessageOr(message: Option<string>, fallback: string): (r: string)
    ensures message.Some? && message.value != "" ==> r == message.value
    ensures message.None? || message.value == "" ==> r == fallback
    ensures fallback != "" ==> r != ""
  {
    match message
    case Some(m) => if m != "" then m else fallback
    case None => fallback
  }
}
