# Autolink sync: a verified model of the reconciliation core

This project models the core of a GitHub Action. The Action keeps a
repository's autolinks (`KEY-` prefixes that turn `KEY-123` into a link to a
Jira issue) in step with the projects of a Jira site. The model covers:

- **The diff engine.** `buildAutolinkPlan` (module `Plan`) turns Jira
  projects, existing autolinks and the site URL into create/update/delete
  operations and two counters. It is a method with the source's three
  loops, each proved against a specification function. `PlanProperties`
  proves what the plan contains.
- **The URL helpers** of `src/utils/url.ts` (module `Url`): trailing-slash
  stripping, normalisation, comparison and URL building, with their laws.
- **The retry policy** `withRetry` (modules `Retry`, `RetryProperties`).
  The operation is an oracle from attempt number to outcome, the
  `Math.random` draws are an oracle from attempt number to a real, and each
  sleep is recorded as a delay. The loop is proved against a recursive
  definition of a run.
- **Plan application** (module `Apply`). A `GitHub` class records the mutator
  calls it receives and answers them through an oracle. A `CoreLib` class
  (module `ActionsCore`) stands for the `@actions/core` logger the code is
  handed: its inputs, an appended log, and the `setFailed` message.
  `applyAutolinkOp`, `applyAutolinkPlan` and `applyAutolinkPlanDryRun` are
  methods over these. `ApplyProperties` proves what a run amounts to.
- **Message formatting**: `describeOp` (module `ApplyMessages`), and both
  copies of `mapJiraError` (modules `JiraErrors` and `Jira`).
- **Input validation** `validateInputs` (modules `Inputs`,
  `InputsProperties`): the required-input checks, the comma-separated
  filters, and the failure path.

The helper modules are:

- `Wrappers`: `Option` and `Result`.
- `Seqs`: `Map` and concatenation facts.
- `Strings`: the JavaScript string operations used, namely ASCII
  `toLowerCase`, ECMAScript `trim`, one-character `split`, `join`, prefix and
  suffix tests, and integer rendering.
- `Types`: the Jira project and GitHub autolink records.

Three behaviours of the code worth noting:

- **Deletes come last.** `buildAutolinkPlan` emits creates and updates in
  project order, then the deletes (`PlanProperties.PlanDeletesLast`).
- **Application is sequential.** `applyAutolinkPlan` is a plain loop. It
  stops at the first failure and rethrows it. There is no concurrency and no
  "apply everything" mode (`ApplyProperties.PlanRunStopsAtFirstFailure`).
- **The plan removes one slash only.** Its own `normalizeUrl` removes at most
  ONE trailing slash, unlike the helper in `src/utils/url.ts`, which removes
  all of them. So `a + "//"` and `a` differ for the plan
  (`PlanProperties.PlanUrlsEqualKeepsSecondSlash`), and the two normalisers
  agree on every other input (`PlanProperties.NormalizersAgreeUpToOneSlash`).

## Model

| member | source | states |
|---|---|---|
| Plan.NormalizeUrl | src/plan.ts:32-34 | the result is the lower-cased URL with one trailing '/' removed if it has one, and is the lower-cased URL otherwise |
| Plan.UrlsEqual | src/plan.ts:36-38 | the plan's URL comparison; `PlanProperties.PlanUrlsEqualIgnoresCase`, `PlanUrlsEqualIgnoresOneSlash` and `PlanUrlsEqualKeepsSecondSlash` state that it ignores letter case and one trailing slash but not a second one |
| Plan.IsJiraAutolink | src/plan.ts:40-43 | the ownership test; `PlanProperties.PlanDeleteIff` and `PlanLeavesUnownedAlone` state that only autolinks passing it are ever deleted |
| Plan.PlanObsoleteDeletions | src/plan.ts:82-90 | the third loop pushes, in map key order, a delete for each prefix that is not desired and whose autolink passes the ownership test |
| Plan.BuildAutolinkPlan | src/plan.ts:45-99 | the operations are the project upserts followed by the deletions, `projectsSynced` is the number of projects, and `operationsPlanned` is the number of operations |
| Plan.KeyOrderMatchesIndex | src/plan.ts:50-53 | the JavaScript `Map` key order lists exactly the keys of the map |
| PlanProperties.IndexDomain | src/plan.ts:50-53 | the map holds a prefix iff some existing autolink has that prefix |
| PlanProperties.IndexLastWins | src/plan.ts:50-53 | a prefix in the map maps to the last autolink with that prefix |
| PlanProperties.IndexAt | src/plan.ts:50-53 | the last autolink with a prefix is the map's entry for that prefix |
| PlanProperties.KeyOrderDistinct | src/plan.ts:82 | iterating the map visits each prefix once |
| PlanProperties.DesiredPrefixesMeans | src/plan.ts:56-62 | a prefix is desired iff some project's key plus "-" equals it |
| PlanProperties.ProjectOpsAreUpserts | src/plan.ts:59-79 | the project loop emits only creates and updates, each for a desired prefix |
| PlanProperties.DeletionOpsAreDeletes | src/plan.ts:82-90 | the map loop emits only deletes, with these properties: each is for an undesired prefix of the map, passes the ownership test, and carries that entry's id |
| PlanProperties.DeletionOpsMembership | src/plan.ts:82-90 | a given delete is emitted iff its prefix is visited, undesired, in the map with that id, and owned |
| PlanProperties.DeletionOpsDistinct | src/plan.ts:82-90 | visiting distinct prefixes yields deletes with distinct prefixes |
| PlanProperties.ProjectOpsConcat | src/plan.ts:59-79 | the upserts of two project lists in sequence are the first list's upserts followed by the second's (project order) |
| PlanProperties.ProjectOpsForPrefix | src/plan.ts:59-79 | with distinct keys, the upserts for project i's prefix are exactly project i's own operation |
| PlanProperties.PlanOpsForProject | src/plan.ts:59-90 | with distinct keys, the whole plan's operations for project i's prefix are exactly project i's operation (no delete for it) |
| PlanProperties.PlanDeletesLast | src/plan.ts:59-90 | every operation after a delete is a delete: creates and updates precede all deletes |
| PlanProperties.PlanCreatesMissing | src/plan.ts:60-70 | with distinct project keys, a project whose prefix has no autolink gets exactly one create, with prefix `key-` and template `jiraUrl/browse/key-<num>` |
| PlanProperties.PlanUpdatesChanged | src/plan.ts:71-78 | with distinct project keys, a project whose last existing autolink's URL differs under the plan's comparison gets exactly one update, which carries that autolink's id and the new template |
| PlanProperties.PlanSkipsConverged | src/plan.ts:71-78 | a project whose last existing autolink's URL compares equal gets no operation, even when other projects repeat its key |
| PlanProperties.PlanSkipsCaseAndSlashVariants | src/plan.ts:64-78 | an existing URL differing from the template only in letter case, or by one extra trailing slash, yields no operation, even when other projects repeat its key |
| PlanProperties.PlanDeleteIff | src/plan.ts:82-90 | a delete (id, prefix) is planned iff no project wants the prefix and that prefix's last autolink has that id and passes the ownership test |
| PlanProperties.PlanDeletesOncePerPrefix | src/plan.ts:82-90 | no two planned deletes share a prefix, even when existing autolinks repeat a prefix |
| PlanProperties.PlanLeavesUnownedAlone | src/plan.ts:40-43 | an autolink that nobody wants and that fails the ownership test gets no operation at all |
| PlanProperties.DeletionOpsForUnowned | src/plan.ts:82-90 | no delete is emitted for a map entry that fails the ownership test |
| PlanProperties.PlanEmptyWhenConverged | src/plan.ts:59-90 | converged input gives an empty plan: every project's prefix exists with a matching URL, and no undesired autolink is owned |
| PlanProperties.ConvergedProjectsNeedNothing | src/plan.ts:59-79 | when every project's autolinks already match, the project loop emits nothing |
| PlanProperties.ProjectOpsForMatched | src/plan.ts:59-79 | when the existing template of a prefix matches for every project asking for it, the project loop emits nothing for that prefix, whether keys repeat or not |
| PlanProperties.PlanUrlsEqualIgnoresCase | src/plan.ts:36-38 | URLs equal up to ASCII case compare equal |
| PlanProperties.PlanUrlsEqualIgnoresOneSlash | src/plan.ts:32-38 | `a + "/"` and `a` compare equal when `a` does not end in '/' |
| PlanProperties.PlanUrlsEqualKeepsSecondSlash | src/plan.ts:32-38 | `a + "//"` and `a` do not compare equal: only one slash is removed |
| PlanProperties.NormalizersAgreeUpToOneSlash | src/plan.ts:32-34 | on every URL not ending in "//", the plan's normaliser and the URL helper's give the same result |
| Url.StripTrailingSlash | src/utils/url.ts:1 | the result does not end in '/', is a prefix of the input, and only '/' follows it in the input |
| Url.NormalizeUrl | src/utils/url.ts:2 | strip, then lower-case; `Url.NormalizeIdempotent` and `Url.StripLower` state that it is idempotent and that the two steps commute |
| Url.UrlsEqual | src/utils/url.ts:3 | equality after normalisation; `Url.UrlsEqualIsEquivalence`, `UrlsEqualIgnoresTrailingSlashes` and `UrlsEqualIgnoresCase` state that it is an equivalence blind to case and trailing slashes |
| Url.JiraBrowseUrl | src/utils/url.ts:5-6 | the browse template; `Url.BrowseUrlIgnoresTrailingSlashes` states that it is unchanged by trailing slashes on the site URL |
| Url.JiraApiUrl | src/utils/url.ts:8-9 | the API URL; `Url.ApiUrlSingleSeparator` and `ApiUrlKeepsLeadingSlash` state that base and path are joined by exactly one '/' |
| Url.StripLeavesSlashRun | src/utils/url.ts:1 | the input is the stripped string followed by a run of slashes |
| Url.StripIdempotent | src/utils/url.ts:1 | stripping twice is stripping once |
| Url.StripIgnoresAddedSlashes | src/utils/url.ts:1 | appending any number of slashes does not change the stripped result |
| Url.StripLower | src/utils/url.ts:1-2 | stripping commutes with ASCII lower-casing |
| Url.NormalizeIdempotent | src/utils/url.ts:2 | `normalizeUrl` is idempotent |
| Url.UrlsEqualIsEquivalence | src/utils/url.ts:3 | `urlsEqual` is reflexive, symmetric and transitive |
| Url.UrlsEqualIgnoresTrailingSlashes | src/utils/url.ts:1-3 | `urlsEqual(a, a + "/" * n)` for every n, e.g. `a + "///"` |
| Url.UrlsEqualIgnoresCase | src/utils/url.ts:2-3 | URLs equal up to ASCII case compare equal |
| Url.BrowseUrlIgnoresTrailingSlashes | src/utils/url.ts:5-6 | the browse template is unchanged by trailing slashes on the site URL and starts with the stripped base plus "/browse/" |
| Url.ApiUrlSingleSeparator | src/utils/url.ts:8-9 | a path without a leading '/' is joined to the stripped base by exactly one '/' |
| Url.ApiUrlKeepsLeadingSlash | src/utils/url.ts:8-9 | a path starting with '/' is appended to the stripped base unchanged |
| Retry.Merge | src/retry.ts:8-19 | each given option overrides the default, and each missing one is the default: 3 attempts, 1000 ms base, 30000 ms cap, codes 429, 500, 502, 503, 504 |
| Retry.IsRetryable | src/retry.ts:34-37 | the retryability test; `RetryProperties.DefaultCodesRetryable` states that under the defaults a bare status is retryable iff it is 429, 500, 502, 503 or 504, and `RunStopsOnFatal` that a non-retryable error ends the run |
| Retry.SleepFor | src/retry.ts:43-61 | the delay rule; `RetryProperties.SleepNonNegative`, `RetryAfterHonoured` and `JitterBounds` state that it is never negative, honours Retry-After without jitter, and otherwise stays within ±25% of the capped backoff |
| Retry.SleepAfter | src/retry.ts:43-61 | the delay computed between attempts is the delay rule's (Retry-After, or backoff with jitter, clamped at zero) |
| Retry.Pause | src/retry.ts:43-63 | the sleeps after attempt n are the sleeps before it plus that attempt's delay |
| Retry.AttemptLoop | src/retry.ts:20-67 | the loop's result and call count are those of the run definition, and its recorded sleeps are the sleeps of that run |
| Retry.WithRetry | src/retry.ts:15-68 | `withRetry` under the merged options settles as the run definition says and sleeps as it says |
| RetryProperties.RunReaches | src/retry.ts:22-41 | after n-1 retryable failures the run continues as the run from attempt n |
| RetryProperties.RunSucceedsAt | src/retry.ts:24 | a success at attempt n after retryable failures returns its value after exactly n calls |
| RetryProperties.RunStopsOnFatal | src/retry.ts:34-41 | a non-retryable error stops the run after that call: an error object is rethrown unchanged, a falsy one becomes the synthetic error |
| RetryProperties.RunCrashesOnNullish | src/retry.ts:34-35 | `undefined`/`null` thrown before the last attempt ends the run with the property-read crash |
| RetryProperties.RunFinalAttemptTerminal | src/retry.ts:28-31 | a failure on the final attempt is terminal whatever its kind; the last error is rethrown |
| RetryProperties.RunFromShape | src/retry.ts:22-67 | the run from an attempt makes between that attempt and the limit many calls; every call but the last failed retryably; the last call decides the result |
| RetryProperties.RunShape | src/retry.ts:20-67 | with `maxAttempts < 1` there are no calls and the synthetic error; otherwise there are 1 to `maxAttempts` calls, each but the last a retryable failure |
| RetryProperties.SleepsShape | src/retry.ts:28-63 | exactly one sleep between consecutive calls and none after the last, each the delay rule's value for the failure before it, none negative |
| RetryProperties.SleepNonNegative | src/retry.ts:61 | the final delay is never negative |
| RetryProperties.RetryAfterHonoured | src/retry.ts:44-50 | a finite Retry-After of N s gives min(N*1000, maxDelay), clamped at zero, with no jitter (the draw plays no part) |
| RetryProperties.JitterBounds | src/retry.ts:53-61 | without Retry-After, the sleep lies within ±25% of min(baseDelay*2^(attempt-1), maxDelay) |
| RetryProperties.JitterRange | src/retry.ts:60-61 | a delay d with jitter from a draw in [0, 1) ends up between 0.75d and 1.25d |
| RetryProperties.BackoffDoublesUpToCap | src/retry.ts:52-56 | the backoff starts at min(baseDelay, maxDelay), doubles per attempt until capped, never decreases and never exceeds maxDelay |
| RetryProperties.BackoffNext | src/retry.ts:53-56 | the next attempt's backoff is the doubled uncapped delay, capped; it is no smaller than the current one |
| RetryProperties.BackoffFirst | src/retry.ts:53-56 | the first backoff is min(baseDelay, maxDelay) |
| RetryProperties.DefaultCodesRetryable | src/retry.ts:8-13 | under the defaults a bare status is retryable iff it is 429, 500, 502, 503 or 504 |
| RetryProperties.DefaultsCallAtMostThrice | src/retry.ts:8-22 | under the defaults the operation is called at least once and at most three times |
| Apply.GitHub.Perform | src/apply.ts:16-27 | a mutator call is appended to the call history and answered by the oracle for its position |
| Apply.OpOutcomeShape | src/apply.ts:13-29 | an operation makes a non-empty prefix of its calls, with these properties: every call but the last succeeded, the outcome is the last call's answer, and without failure all calls were made |
| Apply.ApplyAutolinkOp | src/apply.ts:6-30 | logs the per-kind info line once, then makes the kind's calls: create once; update as delete then create (the create only if the delete succeeded); delete once |
| Apply.RunStopsAfterFailure | src/apply.ts:61-68 | once an operation has failed, later operations change nothing |
| Apply.RunSucceeds | src/apply.ts:63-64 | a successful operation keeps the loop in step with the run definition and adds one to the count |
| Apply.StepFails | src/apply.ts:65-67 | a failing operation's calls, announcement and error line are those of the run definition's failing step |
| Apply.RunFails | src/apply.ts:65-68 | a failing operation leaves the calls, the log and the rethrown error equal to the whole plan's run |
| Apply.ApplyAutolinkPlan | src/apply.ts:53-72 | the calls made, the lines logged and the result (applied count or first error) are those of the run definition |
| Apply.DryRunLog | src/apply.ts:37-49 | one info line per operation, in order |
| Apply.ApplyAutolinkPlanDryRun | src/apply.ts:32-51 | logs the header followed by one line per operation, makes no call, and returns the number of operations |
| ApplyProperties.RunUpToCompletes | src/apply.ts:60-71 | with no failure, every operation so far was applied, every call made, and every operation announced, in order |
| ApplyProperties.RunUpToApplied | src/apply.ts:60-64 | with no failure, the count equals the number of operations run |
| ApplyProperties.RunUpToStops | src/apply.ts:61-68 | a failed run stopped at the operation indexed by its count, after all earlier operations went through |
| ApplyProperties.PlanRunCompletes | src/apply.ts:60-71 | with no failure, the result is the number of operations, and all their calls and announcements happened in list order |
| ApplyProperties.FailingStep | src/apply.ts:65-67 | the first failing operation k: earlier operations made all their calls; k made its calls up to the refused one; the log ends with k's announcement and its `Failed to apply` line |
| ApplyProperties.PlanRunStopsAtFirstFailure | src/apply.ts:61-68 | a failure stops the run at the first failing operation, which is reported and rethrown; no later operation is attempted |
| ApplyProperties.PlanRunAllAccepted | src/apply.ts:60-71 | when GitHub accepts every call, every operation is applied and every call made |
| ApplyProperties.UpdateStopsAfterRefusedDelete | src/apply.ts:19-23 | an update whose delete is refused makes no create |
| ApplyProperties.DryRunLineDescribes | src/apply.ts:38-48 | each dry-run line is "[DRY RUN] Would " + kind + " " + describeOp(op) |
| ApplyProperties.DryRunLogDescribes | src/apply.ts:37-49 | the k-th dry-run line after the header describes the k-th operation that way |
| ApplyMessages.DescribeOp | src/apply-messages.ts:3-12 | the operation description; `ApplyMessages.DescribeOpShape` and the three `…Description` lemmas state its form per operation kind |
| ApplyMessages.DescribeOpShape | src/apply-messages.ts:3-12 | every description starts with "autolink "; creates and updates end with " -> " + URL; deletes end with " for " + prefix; updates and deletes start with "autolink ID for P" |
| ApplyMessages.CreateDescription | src/apply-messages.ts:5-6 | the create description names an autolink and ends with the target URL |
| ApplyMessages.UpdateDescription | src/apply-messages.ts:7-8 | the update description starts "autolink ID for P" and ends with the target URL |
| ApplyMessages.DeleteDescription | src/apply-messages.ts:9-10 | the delete description starts "autolink ID for P" and ends with " for P" |
| JiraErrors.MapJiraError | src/mapJiraError.ts:1-48 | the error-to-message mapping; the `JiraErrors` lemmas below state the message for each response status, abort and error code |
| JiraErrors.ResponseTakesPrecedence | src/mapJiraError.ts:2-31 | with a response, neither `name` nor `code` affects the message |
| JiraErrors.DetailsOnlyWhenListed | src/mapJiraError.ts:7-18 | 401/403 give their fixed message, followed by " Details: " and the joined `errorMessages` iff that list is non-empty |
| JiraErrors.RateLimitReportsRetryAfter | src/mapJiraError.ts:21-23 | 429 reports the `retry-after` header, or "unknown" when it is absent or empty |
| JiraErrors.StatusMessages | src/mapJiraError.ts:24-30 | 500/502/503/504 give the server-error line with the status; any other unlisted status gives `JIRA API error (<status>): <message>` |
| JiraErrors.AbortIsTimeout | src/mapJiraError.ts:32-33 | an `AbortError` without a response gives the timeout message |
| JiraErrors.CodeMessages | src/mapJiraError.ts:34-47 | ENOTFOUND, ECONNREFUSED and UNABLE_TO_VERIFY_LEAF_SIGNATURE get their own messages; any other case gives the network-error line |
| Jira.MapJiraError | src/jira.ts:4-51 | the older copy of the mapping; `Jira.CopiesAgree` states that it returns the same message as `JiraErrors.MapJiraError` for every error |
| Jira.OtherCodeIsNetworkError | src/jira.ts:37-47 | a truthy non-string `code` enters the code branch and gives the network-error line |
| Jira.CopiesAgree | src/jira.ts:4-51 | the older copy returns the same message as src/mapJiraError.ts for every error |
| Inputs.ErrorLines | src/inputs.ts:30-32 | one `  - <error>` line per error, in order |
| Inputs.MissingErrorsUnrolled | src/inputs.ts:16-26 | the required-input errors come in the order github-token, jira-url, jira-username, jira-api-token |
| Inputs.CollectMissing | src/inputs.ts:14-26 | the pushed errors are exactly `<name> is required` for each empty required input, in order |
| Inputs.ReportMissing | src/inputs.ts:28-35 | logs "Missing required inputs:" and then one line per error, and records the failure |
| Inputs.ReportInvalidTypes | src/inputs.ts:52-57 | logs the invalid types, joined, and then the valid ones, and records the failure |
| Inputs.ParseEmpty | src/inputs.ts:40 | the empty input parses to no pieces |
| Inputs.ParseList | src/inputs.ts:40 | split on ',', trim, drop empty pieces; `InputsProperties.ParseListConcat`, `ParsedFrom` and `ParsedElementsAreClean` state that it keeps order and yields only non-empty, trimmed, comma-free pieces of the input |
| Inputs.InvalidTypes | src/inputs.ts:44-50 | the type check; `InputsProperties.InvalidTypesAreUnknown` states that a type is reported iff it is listed and is not business, service_desk or software |
| Inputs.ValidateInputs | src/inputs.ts:13-74 | exits with code 1, after logging the failure and marking the run failed, exactly when a required input is missing or a type is unknown; otherwise returns the parsed inputs and logs nothing |
| InputsProperties.NoErrorsIffAllGiven | src/inputs.ts:16-26 | no error is reported iff every required input is given |
| InputsProperties.MissingErrorsNameTheMissing | src/inputs.ts:16-26 | every error is `<name> is required` for a missing input, and every missing input has one |
| InputsProperties.NonEmptyConcat | src/inputs.ts:40 | dropping empty pieces distributes over concatenation |
| InputsProperties.ParseListConcat | src/inputs.ts:40 | parsing `a + "," + b` gives the pieces of `a` followed by those of `b`, keeping the original order |
| InputsProperties.SplitWithoutSeparator | src/inputs.ts:40 | a string without commas splits to itself |
| InputsProperties.ParseSinglePiece | src/inputs.ts:40 | a comma-free input parses to its trimmed self, or to nothing when that is empty |
| InputsProperties.NonEmptyKeeps | src/inputs.ts:40 | whatever the empty-piece filter keeps is non-empty and was among its input |
| InputsProperties.ParsedFrom | src/inputs.ts:40 | each parsed element is the non-empty trimmed form of a comma-free piece |
| InputsProperties.TrimmedPieceIsClean | src/inputs.ts:40 | a comma-free piece trims to either nothing or a clean element |
| InputsProperties.ParsedElementsAreClean | src/inputs.ts:39-41 | every parsed element is non-empty, has no surrounding whitespace and contains no comma |
| InputsProperties.InvalidTypesAreUnknown | src/inputs.ts:44-50 | a type is reported invalid iff it is in the list and is not business, service_desk or software |
| InputsProperties.EmptyListsDiffer | src/inputs.ts:38-60 | a non-empty input with no pieces gives the category filter `[]` but no type filter |
| InputsProperties.TypeFilterMeaning | src/inputs.ts:45-60 | the type filter is absent iff no types remain after parsing, and is otherwise the parsed list |

## Left out

- HTTP and Octokit clients (`src/jira-client.ts`, `src/jira-categories.ts`, `src/github-client.ts`, `src/github.ts`) and `getJiraQueues` are not part of this model: they sit over `fetch` and Octokit. GitHub's answers to mutator calls are an oracle `respond(n, call)`. The info and error lines that `src/github.ts` itself writes are not modelled.
- Orchestration and entry points (`src/actions/*`, `src/index.ts`, `index.js`) and the scripts are not part of this model.
- `@actions/core` is reduced to `CoreLib`: a map of inputs (`getInput` returns "" for an absent name), an appended log of info and error lines, and the `setFailed` message. `getInput`'s own trimming of values belongs to that library and is not modelled. `process.exit(1)` is the result `Exited(1)`.
- Apply.ApplyAutolinkPlan: the log is stated through a list of events (an operation announced, an operation's failure reported), each mapped to its log line. The same line texts are those the code writes.
- Strings.Lower: `toLowerCase` is modelled on ASCII letters only, because Unicode case mapping is out of scope. `trim` uses the ECMAScript whitespace set.
- Retry: `Math.random()` is an oracle `draw(attempt)`. Delays are exact reals rather than IEEE doubles. `setTimeout` is replaced by recording each delay. `Number(retryAfter)` is not modelled: the header is given as an optional whole number of seconds, absent when it is missing, empty or not finite.
- Retry.Sleeps: it gives a placeholder delay 0.0 for a call that did not fail with an error object. Such a call never precedes a sleep in a run (`RetryProperties.SleepsShape`).
- Retry.WithRetry: merging the options and running the attempt loop are two methods (`WithRetry` and `AttemptLoop`), so each proof stays small.
- Retry.RunFrom: the operation is an oracle from attempt number to outcome. So a second call never behaves differently for a reason other than the attempt number.
- PlanProperties: Jira project keys are unique on a site, so `PlanCreatesMissing`, `PlanUpdatesChanged`, `ProjectOpsForPrefix` and `PlanOpsForProject` assume distinct keys. With a repeated key that is missing, `buildAutolinkPlan` plans one create per repetition, and these lemmas say nothing about that case.
- Retry.Merge: an option that is present but `undefined` (`{maxAttempts: undefined}`) overrides the default in the spread at src/retry.ts:19, so the loop makes no call and throws the synthetic error. The model reads such a field as absent and keeps the default. Options are also whole numbers in the model, while the code takes any JavaScript number: a fractional `maxAttempts` never equals the attempt counter, so the code sleeps after its last call before rethrowing, which the model cannot express. No caller passes either kind of value.
- Concurrency: the code has none: every `await` is sequential. The model is sequential too.
- Inputs.ValidateInputs: the straight-line body is split into `CollectMissing`, `ReportMissing` and `ReportInvalidTypes`, so that each proof stays small.
