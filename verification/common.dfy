/** Values shared by the backend routes and by the pages that call them. */
module Common {

  datatype Option<+T> = None | Some(value: T) {
    /** Python's `d.get(k, default)` and JavaScript's `x || default` on an optional value */
    function GetOr(default: T): (v: T) {
      if Some? then value else default
    }
  }

  /** The scheme prefix of an `Authorization` header. */
  const Bearer: string := "Bearer "

  /** An album record: the fields of the backend's `Album` model, as stored, returned and displayed. */
  datatype Album = Album(
    name: string,
    artist: string,
    releaseDate: string,
    coverUrl: Option<string>,
    spotifyUrl: string)

  /** What a backend route answers: a 200 body, or a JSON error body `{"error": error}` with its status. */
  datatype Response<+T> = Ok(body: T) | Error(status: int, error: string)

  /** How an awaited request settles, as a page sees it: it resolves with `response.data`
      (absent or null is `None`), or it rejects with `err.response?.status` and
      `err.response?.data?.error` (each `None` when there is no response or no such field). */
  datatype Outcome<+T> = Resolved(data: Option<T>) | Rejected(status: Option<int>, error: Option<string>)

  /** JavaScript's `message || fallback` for an optional error string: an absent or empty
      message is falsy and gives the fallback. */
  function MessageOr(message: Option<string>, fallback: string): (shown: string)
    ensures message.Some? && message.value != "" ==> shown == message.value
    ensures message.None? || message.value == "" ==> shown == fallback
    ensures fallback != "" ==> shown != ""
  {
    if message.Some? && message.value != "" then message.value else fallback
  }
}
