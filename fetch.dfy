/** What the client forms get back from `fetch` and `response.json()`. */
module Fetch {
  import opened Wrappers
  import opened Api

  /** A thrown value: an `Error` (with its `message`) or anything else. */
  datatype Thrown = ErrorObject(message: string) | OtherValue

  /** The fields of the parsed JSON the forms and the page read; an absent
      field is `None`, an absent `expired` is falsy. */
  datatype Data = Data(message: Option<string>, expired: bool, username: Option<string>,
                       passwordQr: Option<string>, totpQr: Option<string>)

  /** The outcome of awaiting `fetch(...)` and then `response.json()`:
      something threw, or a response with its `ok` flag and its data. */
  datatype Reply = Rejected(thrown: Thrown) | Answered(ok: bool, data: Data)

  const GenericError := "Une erreur est survenue"

  /** `error instanceof Error ? error.message : "Une erreur est survenue"`. */
  function ErrorText(t: Thrown): (text: string)
  {
    match t
    case ErrorObject(m) => m
    case OtherValue => GenericError
  }

  /** The JSON fields of a route's body. */
  function DataOf(b: Body): (d: Data)
    ensures d.expired <==> b.Renewed?
    ensures d.message.Some? <==> b.Message?
    ensures b.Message? ==> d.message == Some(b.message)
    ensures b.Renewed? || b.Registered? ==> d.passwordQr == b.passwordQr && d.totpQr == b.totpQr
  {
    match b
    case Message(m) => Data(Some(m), false, None, None, None)
    case LoggedIn(u) => Data(None, false, Some(u), None, None)
    case Renewed(p, t) => Data(None, true, None, p, t)
    case Registered(u, p, t) => Data(None, false, Some(u), p, t)
  }

  /** What the browser hands the form for a route's response: `ok` is a
      2xx status. */
  function Deliver(r: Response): (reply: Reply)
    ensures reply.Answered? && (reply.ok <==> 200 <= r.status < 300)
    ensures reply.data == DataOf(r.body)
  {
    Answered(200 <= r.status < 300, DataOf(r.body))
  }
}
