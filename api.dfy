/**
 * The shared HTTP client's interceptors: the request interceptor that adds
 * the bearer token, the response interceptor that turns a backend code into
 * resolve, reject-and-redirect or reject, and the transport-error handler.
 * Toasts and router navigation are returned as values instead of performed.
 */
module Api {
  import opened Wrappers
  import opened Types
  import opened Storage

  /** The backend's `{ code, message, data }` envelope; `code` is whatever number arrived. */
  datatype Envelope<T> = Envelope(code: int, message: string, data: T)

  datatype Toast = NoToast | SuccessToast(text: string) | ErrorToast(text: string)

  /** How the promise returned to the caller settles. */
  datatype Settled<T> = Resolved(value: Envelope<T>) | Rejected(reason: Envelope<T>)

  /** Everything the response interceptor does: a toast, an optional navigation, the settlement. */
  datatype Handled<T> = Handled(toast: Toast, navigate: Option<string>, result: Settled<T>)

  predicate IsSuccessCode(code: int) {
    200 <= code < 300
  }

  /** The decimal text of a three-digit code, as in the path of its error page. */
  function ThreeDigits(code: int): (s: string)
    requires 100 <= code < 1000
    ensures |s| == 3 && forall k :: 0 <= k < 3 ==> '0' <= s[k] <= '9'
  {
    [Digit(code / 100), Digit(code / 10 % 10), Digit(code % 10)]
  }

  function Digit(d: int): (c: char)
    requires 0 <= d < 10
    ensures '0' <= c <= '9'
  {
    (('0' as int) + d) as char
  }

  /**
   * The response interceptor. A 2xx code resolves with the envelope and
   * never navigates; it shows a success toast only for a non-empty message
   * other than "success". Every other code shows the message as an error and
   * rejects with the envelope; exactly the UNAUTHORIZED, FORBIDDEN and
   * NOT_FOUND codes also navigate, to the page whose path is "/" followed
   * by the code.
   */
  function OnResponse<T>(r: Envelope<T>): (h: Handled<T>)
    ensures h.result.Resolved? <==> IsSuccessCode(r.code)
    ensures h.result == Resolved(r) || h.result == Rejected(r)
    ensures IsSuccessCode(r.code) ==>
              h.navigate == None &&
              (h.toast != NoToast <==> r.message != "" && r.message != "success") &&
              (h.toast != NoToast ==> h.toast == SuccessToast(r.message))
    ensures !IsSuccessCode(r.code) ==> h.toast == ErrorToast(r.message)
    ensures h.navigate.Some? <==>
              StatusOf(r.code) in {Some(Unauthorized), Some(Forbidden), Some(NotFound)}
    ensures h.navigate.Some? ==> h.navigate.value == "/" + ThreeDigits(r.code)
  {
    if 200 <= r.code < 300 then
      var toast := if r.message != "" && r.message != "success" then SuccessToast(r.message) else NoToast;
      Handled(toast, None, Resolved(r))
    else if r.code == Code(Unauthorized) then
      Handled(ErrorToast(r.message), Some("/401"), Rejected(r))
    else if r.code == Code(Forbidden) then
      Handled(ErrorToast(r.message), Some("/403"), Rejected(r))
    else if r.code == Code(NotFound) then
      Handled(ErrorToast(r.message), Some("/404"), Rejected(r))
    else
      Handled(ErrorToast(r.message), None, Rejected(r))
  }

  /** The two notices the transport-error handler can show. */
  datatype TransportNotice = NetworkNotice | TimeoutNotice

  /**
   * The transport-error handler: ERR_NETWORK and ECONNABORTED give the
   * network notice, any other error code (or none) the timeout notice; the
   * error is always rejected, so the returned notice is the only choice made.
   */
  function OnTransportError(errorCode: Option<string>): (n: TransportNotice)
    ensures n == NetworkNotice <==> errorCode == Some("ERR_NETWORK") || errorCode == Some("ECONNABORTED")
  {
    if errorCode == Some("ERR_NETWORK") || errorCode == Some("ECONNABORTED") then NetworkNotice
    else TimeoutNotice
  }

  const BearerPrefix: string := "Bearer "

  /** Reads the token back out of an Authorization value. */
  function BearerToken(value: string): Option<string> {
    if |value| >= |BearerPrefix| && value[..|BearerPrefix|] == BearerPrefix
    then Some(value[|BearerPrefix|..])
    else None
  }

  /**
   * The headers after the request interceptor: with a truthy token the
   * Authorization header carries exactly that token behind "Bearer ";
   * otherwise the headers are unchanged. No other header is touched.
   */
  function Authorize(headers: map<string, string>, token: Option<string>): (r: map<string, string>)
    ensures token.Some? && token.value != "" ==>
              "Authorization" in r && BearerToken(r["Authorization"]) == token
    ensures !(token.Some? && token.value != "") ==> r == headers
    ensures r - {"Authorization"} == headers - {"Authorization"}
  {
    if token.Some? && token.value != "" then
      var value := BearerPrefix + token.value;
      assert value[..|BearerPrefix|] == BearerPrefix;
      assert value[|BearerPrefix|..] == token.value;
      headers["Authorization" := value]
    else headers
  }

  /** An outgoing request's configuration, whose headers the interceptor edits in place. */
  class RequestConfig {
    var headers: map<string, string>

    constructor (headers: map<string, string>)
      ensures this.headers == headers
    {
      this.headers := headers;
    }

    /** The request interceptor: reads the stored token and sets Authorization when it is truthy. */
    method Intercept(storage: LocalStorage)
      modifies this
      ensures headers == Authorize(old(headers), GetText(storage.items, "token"))
    {
      var token := GetText(storage.items, "token");
      if token.Some? && token.value != "" {
        headers := headers["Authorization" := BearerPrefix + token.value];
      }
    }
  }
}
