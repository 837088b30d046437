/**
 * The older copy of the Jira error classifier kept next to the Jira client.
 * It differs from the other copy in one guard only: any truthy `code`
 * enters the code branch, not just a string one.
 */
module Jira {
  import opened JiraErrors

  /** The message lines are the same texts as the other copy's; only the code guard differs. */
  function MapJiraError(error: JiraError): string {
    if error.response.Some? then ResponseMessage(error.response.value, error.message)
    else if error.name == "AbortError" then TimedOut
    else if error.code.OtherCode? || (error.code.StringCode? && error.code.code != "") then
      match error.code
      case StringCode(code) => CodeMessage(code, error.message)
      case _ => NetworkError(error.message)
    else NetworkError(error.message)
  }

  /**
   * A truthy code that is not a string enters the code branch, matches none
   * of the known codes and gives the network-error line.
   */
  lemma OtherCodeIsNetworkError(error: JiraError)
    requires error.response.None? && error.name != "AbortError" && error.code.OtherCode?
    ensures MapJiraError(error) == NetworkError(error.message)
  {
  }

  /** The two copies give the same message for every error. */
  lemma CopiesAgree(error: JiraError)
    ensures MapJiraError(error) == JiraErrors.MapJiraError(error)
  {
  }
}
