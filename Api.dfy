/**
 * The HTTP helper: mapping a failed request to the client's `ApiError`, and the request
 * interceptor that attaches the stored token.
 */
module Api {
  import opened Wrappers

  const DefaultErrorMessage := "An error occurred"
  const NetworkErrorMessage := "Network error occurred"
  const NetworkErrorStatus := 500
  const AuthorizationHeader := "Authorization"

  /** The response body, if any; its `message` may be missing. */
  datatype ResponseBody = ResponseBody(message: Option<string>)

  datatype Response = Response(status: int, data: Option<ResponseBody>)

  /** A failed request: with a response from the server, or none (the network failed). */
  datatype RequestError = RequestError(response: Option<Response>)

  datatype ApiError = ApiError(message: string, statusCode: int)

  /** `error.response.data?.message`, empty when missing. */
  function BodyMessage(response: Response): string {
    if response.data.Some? && response.data.value.message.Some? then response.data.value.message.value else ""
  }

  /** `handleApiError`. */
  function HandleApiError(error: RequestError): (r: ApiError)
    ensures error.response.Some? ==> r.statusCode == error.response.value.status
    ensures error.response.Some? && BodyMessage(error.response.value) != "" ==>
      r.message == BodyMessage(error.response.value)
    ensures error.response.Some? && BodyMessage(error.response.value) == "" ==>
      r.message == DefaultErrorMessage
    ensures error.response.None? ==> r == ApiError(NetworkErrorMessage, NetworkErrorStatus)
  {
    match error.response
    case Some(response) =>
      var message := BodyMessage(response);
      ApiError(if message != "" then message else DefaultErrorMessage, response.status)
    case None => ApiError(NetworkErrorMessage, NetworkErrorStatus)
  }

  /** A response error never carries an empty message, whatever the server sent. */
  lemma MessageNeverEmpty(error: RequestError)
    ensures HandleApiError(error).message != ""
  {
  }

  /** The token counts only when one is stored and it is not empty. */
  predicate HasToken(token: Option<string>) {
    token.Some? && token.value != ""
  }

  /** The headers after the interceptor. */
  function Authorized(headers: map<string, string>, token: Option<string>): (r: map<string, string>)
    ensures HasToken(token) ==> AuthorizationHeader in r && r[AuthorizationHeader] == "Bearer " + token.value
    ensures HasToken(token) ==> r.Keys == headers.Keys + {AuthorizationHeader}
    ensures forall k :: k in headers && k != AuthorizationHeader ==> k in r && r[k] == headers[k]
    ensures !HasToken(token) ==> r == headers
  {
    if HasToken(token) then headers[AuthorizationHeader := "Bearer " + token.value] else headers
  }

  /** The request configuration the interceptor receives and returns. */
  class RequestConfig {
    var headers: map<string, string>

    constructor (headers: map<string, string>)
      ensures this.headers == headers
    {
      this.headers := headers;
    }

    /** The request interceptor: sets `Authorization` on this configuration in place. */
    method Intercept(token: Option<string>)
      modifies this
      ensures headers == Authorized(old(headers), token)
    {
      if HasToken(token) {
        headers := headers[AuthorizationHeader := "Bearer " + token.value];
      }
    }
  }
}
