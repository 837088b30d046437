/**
 * The classifier that turns an error thrown while talking to Jira into the
 * message shown to the user. The HTTP response, when there is one, decides;
 * otherwise a timeout, then a network error code, then a generic line.
 */
module JiraErrors {
  import opened Wrappers
  import opened Strings

  /** The `code` property: absent or falsy, a string, or some other truthy value. */
  datatype ErrorCode = NoCode | StringCode(code: string) | OtherCode

  /**
   * An HTTP response: its status, the `errorMessages` list of its body when
   * there is one, and its `retry-after` header when present.
   */
  datatype JiraResponse = JiraResponse(status: int, errorMessages: Option<seq<string>>, retryAfter: Option<string>)

  datatype JiraError = JiraError(response: Option<JiraResponse>, name: string, code: ErrorCode, message: string)

  const AuthFailed := "JIRA authentication failed. Please check your username and API token."
  const AccessDenied := "Access denied to JIRA projects. Please check your permissions."
  const NotFound := "JIRA instance not found. Please check your JIRA URL."
  const TimedOut := "JIRA API request timed out. Please check your network connection or try again later."
  const CannotResolve := "Cannot resolve JIRA URL. Please check that the JIRA URL is correct and accessible."
  const Refused := "Connection to JIRA refused. Please check your JIRA URL and network connectivity."
  const BadCertificate :=
    "SSL certificate verification failed for JIRA instance. Please check the certificate or contact your administrator."

  predicate HasDetails(errorMessages: Option<seq<string>>) {
    errorMessages.Some? && |errorMessages.value| > 0
  }

  /** A fixed message, followed by the joined `errorMessages` when the list is non-empty. */
  function WithDetails(base: string, errorMessages: Option<seq<string>>): string {
    if HasDetails(errorMessages) then base + " Details: " + Join(errorMessages.value, ", ") else base
  }

  function RateLimited(retryAfter: Option<string>): string {
    var shown := if retryAfter.Some? && retryAfter.value != "" then retryAfter.value else "unknown";
    "JIRA API rate limit exceeded. Retry after: " + shown + " seconds."
  }

  function ServerError(status: int): string {
    "JIRA server error (" + IntToString(status) + "). Please try again later or contact your JIRA administrator."
  }

  function ApiError(status: int, message: string): string {
    "JIRA API error (" + IntToString(status) + "): " + message
  }

  function NetworkError(message: string): string {
    "Network error connecting to JIRA: " + message
  }

  /** The message for an error that carries an HTTP response. */
  function ResponseMessage(response: JiraResponse, message: string): string {
    match response.status
    case 401 => WithDetails(AuthFailed, response.errorMessages)
    case 403 => WithDetails(AccessDenied, response.errorMessages)
    case 404 => NotFound
    case 429 => RateLimited(response.retryAfter)
    case 500 => ServerError(500)
    case 502 => ServerError(502)
    case 503 => ServerError(503)
    case 504 => ServerError(504)
    case _ => ApiError(response.status, message)
  }

  /** The message for a network error code. */
  function CodeMessage(code: string, message: string): string {
    match code
    case "ENOTFOUND" => CannotResolve
    case "ECONNREFUSED" => Refused
    case "UNABLE_TO_VERIFY_LEAF_SIGNATURE" => BadCertificate
    case _ => NetworkError(message)
  }

  /** `mapJiraError`; only a non-empty string `code` reaches the code branch. */
  function MapJiraError(error: JiraError): string {
    if error.response.Some? then ResponseMessage(error.response.value, error.message)
    else if error.name == "AbortError" then TimedOut
    else if error.code.StringCode? && error.code.code != "" then CodeMessage(error.code.code, error.message)
    else NetworkError(error.message)
  }

  /** With a response, neither `name` nor `code` matters. */
  lemma ResponseTakesPrecedence(a: JiraError, b: JiraError)
    requires a.response.Some? && a.response == b.response && a.message == b.message
    ensures MapJiraError(a) == MapJiraError(b)
  {
  }

  /** 401 and 403 give their fixed message, extended by the details exactly when the list is non-empty. */
  lemma DetailsOnlyWhenListed(error: JiraError)
    requires error.response.Some? && error.response.value.status in {401, 403}
    ensures var response, r := error.response.value, MapJiraError(error);
      var base := if response.status == 401 then AuthFailed else AccessDenied;
      && StartsWith(r, base)
      && (r == base <==> !HasDetails(response.errorMessages))
      && (HasDetails(response.errorMessages) ==> r == base + " Details: " + Join(response.errorMessages.value, ", "))
  {
    var response := error.response.value;
    var base := if response.status == 401 then AuthFailed else AccessDenied;
    if HasDetails(response.errorMessages) {
      var tail := " Details: " + Join(response.errorMessages.value, ", ");
      assert base + tail == base + " Details: " + Join(response.errorMessages.value, ", ");
      assert |base + tail| > |base|;
      assert (base + tail)[..|base|] == base;
    }
  }

  /** 429 reports the `retry-after` header, or `unknown` when it is absent or empty. */
  lemma RateLimitReportsRetryAfter(error: JiraError)
    requires error.response.Some? && error.response.value.status == 429
    ensures var h := error.response.value.retryAfter;
      MapJiraError(error) == "JIRA API rate limit exceeded. Retry after: "
                             + (if h.None? || h.value == "" then "unknown" else h.value) + " seconds."
  {
  }

  /** The four gateway statuses give the server-error line, every other unlisted status the generic one. */
  lemma StatusMessages(error: JiraError)
    requires error.response.Some? && error.response.value.status !in {401, 403, 404, 429}
    ensures var status := error.response.value.status;
      MapJiraError(error) == if status in {500, 502, 503, 504} then ServerError(status) else ApiError(status, error.message)
  {
  }

  /** Without a response, `AbortError` is a timeout whatever the code. */
  lemma AbortIsTimeout(error: JiraError)
    requires error.response.None? && error.name == "AbortError"
    ensures MapJiraError(error) == TimedOut
  {
  }

  /**
   * Without a response or an abort, the three known codes get their own
   * message and everything else the network-error line.
   */
  lemma CodeMessages(error: JiraError)
    requires error.response.None? && error.name != "AbortError"
    ensures var known := error.code.StringCode? && error.code.code in {"ENOTFOUND", "ECONNREFUSED", "UNABLE_TO_VERIFY_LEAF_SIGNATURE"};
      && (known ==> MapJiraError(error) == CodeMessage(error.code.code, error.message))
      && (!known ==> MapJiraError(error) == NetworkError(error.message))
  {
  }
}
