/** Shared vocabulary of the dashboard pages: optional values, request
    parameters, what an awaited API call can produce, and the toast that a
    handler raises. The HTTP client itself is not modelled: every response
    is an input of the handler that awaits it. */
module Api {

  datatype Option<+T> = None | Some(value: T)

  /** A query-parameter value: the pages send numbers (`page`, `limit`)
      and strings (filters). */
  datatype ParamValue = Num(n: int) | Text(s: string)

  /** A value thrown by an awaited call. An axios error is an `Error` too;
      it may carry the server's JSON `message`. */
  datatype Thrown =
    | ErrorObject(message: string)
    | AxiosErrorObject(message: string, responseMessage: Option<string>)
    | NonError

  /** The settled result of an awaited call: a response body or a throw. */
  datatype Outcome<+T> = Resolved(body: T) | Rejected(thrown: Thrown)

  /** A notification raised by a handler. */
  datatype Toast = SuccessToast(text: string) | ErrorToast(text: string)

  const NotLoggedIn: string := "You are not logged in!"

  /** The handlers test the stored token for truthiness (`if (!token)`,
      `if (token)`): a missing token and an empty one both mean "not
      logged in". */
  predicate LoggedIn(token: Option<string>) {
    token.Some? && token.value != ""
  }

  /** The body of a paged list response, `{ data, totalPages }`; either
      field may be missing. */
  datatype ListBody<+T> = ListBody(data: Option<seq<T>>, totalPages: Option<int>)

  /** `res.data?.data || []`: the list the page shows after a response.
      A present array, even an empty one, is taken as it is. */
  function DataOrEmpty<T>(body: Option<ListBody<T>>): (list: seq<T>)
    ensures body.Some? && body.value.data.Some? ==> list == body.value.data.value
    ensures body.None? || body.value.data.None? ==> list == []
  {
    if body.Some? && body.value.data.Some? then body.value.data.value else []
  }

  /** `res.data?.totalPages || 1`: a missing count and a count of 0 (both
      falsy) fall back to 1; any other number is taken as it is. */
  function TotalPagesOrOne<T>(body: Option<ListBody<T>>): (n: int)
    ensures n != 0
    ensures body.Some? && body.value.totalPages.Some? && body.value.totalPages.value != 0
            ==> n == body.value.totalPages.value
    ensures n != 1 ==> body.Some? && body.value.totalPages == Some(n)
  {
    if body.Some? && body.value.totalPages.Some? && body.value.totalPages.value != 0
    then body.value.totalPages.value
    else 1
  }

  /** Badge classes of an appointment status. */
  const YellowBadge: string := "bg-yellow-100 text-yellow-800"
  const GreenBadge: string := "bg-green-100 text-green-800"
  const RedBadge: string := "bg-red-100 text-red-800"
  const GrayBadge: string := "bg-gray-100 text-gray-800"

  predicate IsErrorInstance(e: Thrown) {
    e.ErrorObject? || e.AxiosErrorObject?
  }

  /** The text a `catch` block shows when it reports `error.message` for
      an `Error` and a fixed fallback for anything else. */
  function CaughtMessage(e: Thrown, fallback: string): (text: string)
    ensures IsErrorInstance(e) ==> text == e.message
    ensures !IsErrorInstance(e) ==> text == fallback
  {
    match e
    case ErrorObject(m) => m
    case AxiosErrorObject(m, _) => m
    case NonError => fallback
  }
}
