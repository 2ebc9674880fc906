/** The frontend's HTTP client: the header its request interceptor adds, and how a backend
    answer settles the awaited request. */
module Api {
  import opened Common
  import opened Strings

  /** The request interceptor: `Authorization: Bearer ${token}` when the stored token is
      truthy, and no header at all otherwise. */
  function AuthorizationHeader(storedToken: Option<string>): (header: Option<string>)
    ensures header.Some? <==> storedToken.Some? && storedToken.value != ""
    ensures header.Some? ==> StartsWith(header.value, Bearer) && header.value[|Bearer|..] == storedToken.value
  {
    if storedToken.Some? && storedToken.value != "" then Some(Bearer + storedToken.value) else None
  }

  /** The client's default status check: a 200 resolves with the body as `response.data`;
      an error status rejects, carrying the status and the body's `error` field. */
  function Settle<T>(resp: Response<T>): (outcome: Outcome<T>)
    ensures resp.Ok? <==> outcome.Resolved?
    ensures outcome.Resolved? ==> outcome.data == Some(resp.body)
    ensures outcome.Rejected? ==> outcome.status == Some(resp.status) && outcome.error == Some(resp.error)
  {
    match resp
    case Ok(body) => Resolved(Some(body))
    case Error(status, error) => Rejected(Some(status), Some(error))
  }
}
