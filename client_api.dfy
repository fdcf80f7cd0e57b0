/**
 * The `apiCall` helper that App.js and Chat.js each define: the request
 * headers, the URL resolution of the Chat.js copy, and how a response
 * becomes a value or a thrown error message.
 */
module ClientApi {
  import opened Wrappers
  import opened Text
  import Server

  const LocalServer: string := "http://localhost:5001"
  const RequestFailed: string := "요청 실패"

  /** `url.startsWith('http') ? url : `http://localhost:5001${url}`` */
  function ResolveUrl(url: string): (r: string)
    ensures StartsWith(r, "http")
    ensures StartsWith(url, "http") ==> r == url
    ensures !StartsWith(url, "http") ==> r == LocalServer + url && r[|LocalServer|..] == url
  {
    if StartsWith(url, "http") then url else LocalServer + url
  }

  /** The `headers` of the fetch config; the callers pass no headers of their own. */
  function RequestHeaders(token: Option<string>): (h: map<string, string>)
    ensures "Content-Type" in h && h["Content-Type"] == "application/json"
    ensures "Authorization" in h <==> token.Some? && token.value != ""
    ensures "Authorization" in h ==> h["Authorization"] == Server.BearerHeader(token.value)
    ensures h.Keys <= {"Content-Type", "Authorization"}
  {
    var base := map["Content-Type" := "application/json"];
    if token.Some? && token.value != "" then base["Authorization" := Server.BearerHeader(token.value)]
    else base
  }

  /** The token a client holds reaches the server's gate unchanged. */
  lemma HeaderCarriesToken(token: string)
    requires token != "" && ' ' !in token
    ensures var h := RequestHeaders(Some(token));
            "Authorization" in h && Server.BearerToken(Some(h["Authorization"])) == Some(token)
  {
    Server.BearerTokenOfHeader(token);
  }

  /** `response.ok`: a 2xx status. */
  predicate IsOk(status: nat) {
    200 <= status <= 299
  }

  /**
   * `if (!response.ok) throw new Error(data.error || '요청 실패'); return data;`
   * `errorField` is the `error` property of the parsed body (None when absent or null).
   */
  function Settle<T>(ok: bool, data: T, errorField: Option<string>): (r: Result<T, string>)
    ensures r.Success? <==> ok
    ensures r.Success? ==> r.value == data
    ensures r.Failure? ==> r.error != ""
    ensures r.Failure? && errorField.Some? && errorField.value != "" ==> r.error == errorField.value
    ensures r.Failure? && (errorField.None? || errorField.value == "") ==> r.error == RequestFailed
  {
    if ok then Success(data)
    else if errorField.Some? && errorField.value != "" then Failure(errorField.value)
    else Failure(RequestFailed)
  }

  /** The `error` property of a server body. */
  function ErrorField(body: Server.Body): (r: Option<string>)
    ensures r.Some? <==> body.ErrorBody?
    ensures r.Some? ==> r.value == body.error
  {
    if body.ErrorBody? then Some(body.error) else None
  }

  /** Every error answer of the server reaches the client as its own message, and every success as data. */
  lemma ServerErrorsSurface(res: Server.Response)
    requires res.body.ErrorBody? <==> res.status >= 400
    requires res.body.ErrorBody? ==> res.body.error != ""
    requires res.status >= 400 || IsOk(res.status)
    ensures var r := Settle(IsOk(res.status), res.body, ErrorField(res.body));
            && (res.status >= 400 ==> r == Failure(res.body.error))
            && (IsOk(res.status) ==> r == Success(res.body))
  {
  }
}
