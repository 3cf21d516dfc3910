/** `ErrorHandler`: the message shown for an error value, chosen by the
    error's shape in a fixed order of precedence. */
module ErrorHandler {
  import opened Js

  /** One value of `response.data.errors`: a message or a list of them
      (`flat()` spreads lists one level deep). */
  datatype ErrorEntry = One(text: string) | Many(texts: seq<string>)

  /** `error.response.data`. `errors` lists the values of the errors
      object in key order. */
  datatype ErrorData = ErrorData(message: Option<string>, errors: Option<seq<ErrorEntry>>)

  datatype ErrorResponse = ErrorResponse(status: int, statusText: string, data: Option<ErrorData>)

  /** The `error` prop. */
  datatype ErrorValue =
    | Absent                                  // null or undefined
    | Text(s: string)                         // a string
    | Raised(response: Option<ErrorResponse>, request: bool, message: Option<string>)

  /** `Object.values(errors).flat()` */
  function Flatten(entries: seq<ErrorEntry>): seq<string> {
    if entries == [] then []
    else
      (match entries[0] case One(t) => [t] case Many(ts) => ts) + Flatten(entries[1..])
  }

  const NoResponseMessage := "No response received from server. Please check your connection."
  const UnknownMessage := "An unknown error occurred"

  /** The alert text, or `None` when nothing is rendered. */
  function Message(e: ErrorValue): (m: Option<string>)
    ensures m.None? <==> e == Absent || e == Text("")
    ensures e.Text? && e.s != "" ==> m == Some(e.s)
    ensures e.Raised? && e.response.Some? && e.response.value.data.Some?
            && e.response.value.data.value.message.Some? && e.response.value.data.value.message.value != ""
            ==> m == Some(e.response.value.data.value.message.value)
    ensures e.Raised? && e.response.Some? ==> m == Some(ResponseMessage(e.response.value))
    ensures e.Raised? && e.response.None? && e.request ==> m == Some(NoResponseMessage)
    ensures e.Raised? && e.response.None? && !e.request ==>
              m == Some(if e.message.Some? && e.message.value != "" then e.message.value else UnknownMessage)
  {
    match e
    case Absent => None
    case Text(s) => if s == "" then None else Some(s)
    case Raised(response, request, message) =>
      if response.Some? then Some(ResponseMessage(response.value))
      else if request then Some(NoResponseMessage)
      else if message.Some? && message.value != "" then Some(message.value)
      else Some(UnknownMessage)
  }

  /** The message for an error that carries a server response. */
  function ResponseMessage(r: ErrorResponse): (m: string)
    ensures r.data.Some? && r.data.value.message.Some? && r.data.value.message.value != "" ==>
              m == r.data.value.message.value
    ensures r.data.Some? && !(r.data.value.message.Some? && r.data.value.message.value != "") && r.data.value.errors.Some? ==>
              m == Join(Flatten(r.data.value.errors.value), ", ")
    ensures !(r.data.Some? && ((r.data.value.message.Some? && r.data.value.message.value != "") || r.data.value.errors.Some?)) ==>
              m == "Error " + IntToString(r.status) + ": " + r.statusText
  {
    if r.data.Some? && r.data.value.message.Some? && r.data.value.message.value != "" then r.data.value.message.value
    else if r.data.Some? && r.data.value.errors.Some? then Join(Flatten(r.data.value.errors.value), ", ")
    else "Error " + IntToString(r.status) + ": " + r.statusText
  }

  /** A server message wins over the validation errors, whatever they are. */
  lemma MessageBeatsErrors(status: int, statusText: string, message: string, errors: Option<seq<ErrorEntry>>)
    requires message != ""
    ensures Message(Raised(Some(ErrorResponse(status, statusText, Some(ErrorData(Some(message), errors)))), true, None))
            == Some(message)
  {
  }

  /** A single validation message is shown as it is. */
  lemma SingleErrorShownAsIs(status: int, statusText: string, text: string)
    ensures ResponseMessage(ErrorResponse(status, statusText, Some(ErrorData(None, Some([One(text)])))))
            == text
  {
    assert Flatten([One(text)]) == [text];
  }

  /** Field errors listed as arrays are spread before joining. */
  lemma {:induction false} FlattenAppend(a: seq<ErrorEntry>, b: seq<ErrorEntry>)
    ensures Flatten(a + b) == Flatten(a) + Flatten(b)
  {
    if a != [] {
      assert (a + b)[1..] == a[1..] + b;
      FlattenAppend(a[1..], b);
    } else {
      assert a + b == b;
    }
  }

  /** Every rendered message is non-empty except the joined validation
      list, which is empty only when it holds no text at all. */
  lemma MessageNonEmpty(e: ErrorValue)
    requires Message(e).Some?
    requires e.Raised? && e.response.Some? ==> e.response.value.data.None? || e.response.value.data.value.errors.None?
    ensures Message(e).value != ""
  {
  }
}
