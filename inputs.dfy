/**
 * Reading and checking the action's inputs: the four required ones, the
 * comma-separated category and project-type filters, and the free-form
 * project query. A missing input or an unknown project type logs the
 * problem, marks the run failed and exits with code 1.
 */
module Inputs {
  import opened Wrappers
  import opened Seqs
  import opened Strings
  import opened ActionsCore

  datatype ValidatedInputs = ValidatedInputs(
    githubToken: string,
    jiraUrl: string,
    jiraUsername: string,
    jiraApiToken: string,
    projectCategoryFilter: Option<seq<string>>,
    projectTypeFilter: Option<seq<string>>,
    projectQuery: Option<string>)

  /** How validation ends: with the inputs, or with `process.exit(code)`. */
  datatype Validation = Validated(inputs: ValidatedInputs) | Exited(code: int)

  const RequiredInputs: seq<string> := ["github-token", "jira-url", "jira-username", "jira-api-token"]
  const ValidProjectTypes: seq<string> := ["business", "service_desk", "software"]
  const ValidationFailed := "Input validation failed"

  /** The error for one required input: none when it is given. */
  function Requirement(coreLib: CoreLib, name: string): seq<string> {
    if coreLib.GetInput(name) == "" then [name + " is required"] else []
  }

  /** The errors for the required inputs `names`, in their order. */
  function MissingErrors(coreLib: CoreLib, names: seq<string>): seq<string> {
    if names == [] then [] else MissingErrors(coreLib, names[..|names| - 1]) + Requirement(coreLib, names[|names| - 1])
  }

  /** One `  - <error>` error line per error, in order. */
  function ErrorLines(errors: seq<string>): (lines: seq<LogEntry>)
    ensures |lines| == |errors|
    ensures forall k | 0 <= k < |errors| :: lines[k] == Error("  - " + errors[k])
  {
    if errors == [] then [] else ErrorLines(errors[..|errors| - 1]) + [Error("  - " + errors[|errors| - 1])]
  }

  /** `map(s => s.trim())`. */
  function TrimAll(pieces: seq<string>): seq<string> {
    Map(Trim, pieces)
  }

  /** `filter(s => s.length > 0)`. */
  function NonEmpty(pieces: seq<string>): seq<string> {
    if pieces == [] then []
    else NonEmpty(pieces[..|pieces| - 1]) + (if pieces[|pieces| - 1] != "" then [pieces[|pieces| - 1]] else [])
  }

  /** A comma-separated list: split on commas, trim each piece, drop the empty ones. */
  function ParseList(input: string): seq<string> {
    NonEmpty(TrimAll(Split(input, ',')))
  }

  function CategoryFilter(input: string): Option<seq<string>> {
    if input == "" then None else Some(ParseList(input))
  }

  /** `types.filter(t => !VALID_PROJECT_TYPES.includes(t))`. */
  function InvalidTypes(types: seq<string>): seq<string> {
    if types == [] then []
    else InvalidTypes(types[..|types| - 1]) + (if types[|types| - 1] !in ValidProjectTypes then [types[|types| - 1]] else [])
  }

  function TypeFilter(input: string): Option<seq<string>> {
    if input == "" then None
    else
      var types := ParseList(input);
      if |types| > 0 then Some(types) else None
  }

  function ProjectQuery(input: string): Option<string> {
    if input == "" then None else Some(input)
  }

  /** The inputs `validateInputs` returns when nothing is missing or invalid. */
  function Expected(coreLib: CoreLib): ValidatedInputs {
    ValidatedInputs(
      coreLib.GetInput("github-token"), coreLib.GetInput("jira-url"),
      coreLib.GetInput("jira-username"), coreLib.GetInput("jira-api-token"),
      CategoryFilter(coreLib.GetInput("filter-project-category-ids")),
      TypeFilter(coreLib.GetInput("filter-project-type")),
      ProjectQuery(coreLib.GetInput("filter-project-query")))
  }

  lemma GithubTokenText()
    ensures "github-token" + " is required" == "github-token is required"
  {
  }

  lemma JiraUrlText()
    ensures "jira-url" + " is required" == "jira-url is required"
  {
  }

  lemma JiraUsernameText()
    ensures "jira-username" + " is required" == "jira-username is required"
  {
  }

  lemma JiraApiTokenText()
    ensures "jira-api-token" + " is required" == "jira-api-token is required"
  {
  }

  /** The four required inputs, checked one after the other. */
  lemma MissingErrorsUnrolled(coreLib: CoreLib)
    ensures MissingErrors(coreLib, RequiredInputs)
         == Requirement(coreLib, "github-token") + Requirement(coreLib, "jira-url")
          + Requirement(coreLib, "jira-username") + Requirement(coreLib, "jira-api-token")
  {
    var one, two, three := ["github-token"], ["github-token", "jira-url"], ["github-token", "jira-url", "jira-username"];
    assert one[..0] == [] && two[..1] == one && three[..2] == two && RequiredInputs[..3] == three;
    assert MissingErrors(coreLib, one) == Requirement(coreLib, "github-token");
    assert MissingErrors(coreLib, two) == Requirement(coreLib, "github-token") + Requirement(coreLib, "jira-url");
  }

  /**
   * The lines logged and the failure recorded when validation stops: the
   * header and one line per missing input, or the invalid project types and
   * the valid ones.
   */
  function FailureLog(missing: seq<string>, invalid: seq<string>): seq<LogEntry> {
    if missing != [] then [Error("Missing required inputs:")] + ErrorLines(missing)
    else [Error("Invalid project types: " + Join(invalid, ", ")), Error("Valid types are: " + Join(ValidProjectTypes, ", "))]
  }

  /** The empty input parses to no pieces. */
  lemma ParseEmpty()
    ensures ParseList("") == []
  {
    assert Split("", ',') == [""];
    assert LeadingWhitespace("") == 0;
    assert Trim("") == "";
    assert TrimAll([""]) == [""];
    assert [""][..0] == [];
    assert NonEmpty([""]) == NonEmpty([]);
  }

  /** The required-input checks, pushing one error per missing input. */
  method CollectMissing(coreLib: CoreLib) returns (validationErrors: seq<string>)
    ensures validationErrors == MissingErrors(coreLib, RequiredInputs)
  {
    validationErrors := [];
    GithubTokenText();
    JiraUrlText();
    JiraUsernameText();
    JiraApiTokenText();

    var githubToken := coreLib.GetInput("github-token");
    if githubToken == "" { validationErrors := validationErrors + ["github-token is required"]; }
    assert validationErrors == Requirement(coreLib, "github-token");

    var jiraUrl := coreLib.GetInput("jira-url");
    if jiraUrl == "" { validationErrors := validationErrors + ["jira-url is required"]; }
    assert validationErrors == Requirement(coreLib, "github-token") + Requirement(coreLib, "jira-url");

    var jiraUsername := coreLib.GetInput("jira-username");
    if jiraUsername == "" { validationErrors := validationErrors + ["jira-username is required"]; }
    assert validationErrors == Requirement(coreLib, "github-token") + Requirement(coreLib, "jira-url")
                             + Requirement(coreLib, "jira-username");

    var jiraApiToken := coreLib.GetInput("jira-api-token");
    if jiraApiToken == "" { validationErrors := validationErrors + ["jira-api-token is required"]; }

    MissingErrorsUnrolled(coreLib);
  }

  /** The header and one line per error, then the failure. */
  method ReportMissing(coreLib: CoreLib, validationErrors: seq<string>)
    requires validationErrors != []
    modifies coreLib`log, coreLib`failure
    ensures coreLib.log == old(coreLib.log) + FailureLog(validationErrors, [])
    ensures coreLib.failure == Some(ValidationFailed)
  {
    coreLib.Error("Missing required inputs:");
    for i := 0 to |validationErrors|
      invariant coreLib.log == old(coreLib.log) + [Error("Missing required inputs:")] + ErrorLines(validationErrors[..i])
    {
      coreLib.Error("  - " + validationErrors[i]);
      assert validationErrors[..i + 1][..i] == validationErrors[..i];
    }
    assert validationErrors[..|validationErrors|] == validationErrors;
    coreLib.SetFailed(ValidationFailed);
  }

  /** The invalid project types and the valid ones, then the failure. */
  method ReportInvalidTypes(coreLib: CoreLib, invalidTypes: seq<string>)
    modifies coreLib`log, coreLib`failure
    ensures coreLib.log == old(coreLib.log) + FailureLog([], invalidTypes)
    ensures coreLib.failure == Some(ValidationFailed)
  {
    coreLib.Error("Invalid project types: " + Join(invalidTypes, ", "));
    coreLib.Error("Valid types are: " + Join(ValidProjectTypes, ", "));
    coreLib.SetFailed(ValidationFailed);
  }

  /**
   * `validateInputs`: every missing required input is reported and ends the
   * run; otherwise an unknown project type does; otherwise the parsed
   * inputs are returned and nothing is logged.
   */
  method ValidateInputs(coreLib: CoreLib) returns (outcome: Validation)
    modifies coreLib`log, coreLib`failure
    ensures Settled(coreLib, old(coreLib.log), old(coreLib.failure), coreLib.log, coreLib.failure, outcome)
  {
    var validationErrors := CollectMissing(coreLib);
    if |validationErrors| > 0 {
      ReportMissing(coreLib, validationErrors);
      return Exited(1);
    }

    var categoryIdsInput := coreLib.GetInput("filter-project-category-ids");
    var projectCategoryFilter := CategoryFilter(categoryIdsInput);

    var projectTypeInput := coreLib.GetInput("filter-project-type");
    var projectTypeFilter: Option<seq<string>> := None;
    if projectTypeInput != "" {
      var types := ParseList(projectTypeInput);
      var invalidTypes := InvalidTypes(types);
      if |invalidTypes| > 0 {
        ReportInvalidTypes(coreLib, invalidTypes);
        return Exited(1);
      }
      projectTypeFilter := if |types| > 0 then Some(types) else None;
    } else {
      ParseEmpty();
    }

    var projectQuery := ProjectQuery(coreLib.GetInput("filter-project-query"));

    return Validated(ValidatedInputs(coreLib.GetInput("github-token"), coreLib.GetInput("jira-url"),
                                     coreLib.GetInput("jira-username"), coreLib.GetInput("jira-api-token"),
                                     projectCategoryFilter, projectTypeFilter, projectQuery));
  }

  /**
   * The run either stops, with `FailureLog` appended, the failure recorded
   * and exit code 1, exactly when an input is missing or a project type is
   * unknown, or returns `Expected` and leaves the log and failure alone.
   */
  predicate Settled(coreLib: CoreLib, log0: seq<LogEntry>, failure0: Option<string>,
                    log: seq<LogEntry>, failure: Option<string>, outcome: Validation)
  {
    var missing := MissingErrors(coreLib, RequiredInputs);
    var invalid := InvalidTypes(ParseList(coreLib.GetInput("filter-project-type")));
    if missing != [] || invalid != [] then
      outcome == Exited(1) && log == log0 + FailureLog(missing, invalid) && failure == Some(ValidationFailed)
    else
      outcome == Validated(Expected(coreLib)) && log == log0 && failure == failure0
  }
}
