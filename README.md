# cypress-set-github-status, modelled in Dafny

cypress-set-github-status is a Cypress plugin. It reports a test run's progress to GitHub through commit statuses. When the run starts, it posts `pending` with the description "Tests running". When the run ends, it posts `success` or `failure`. It also has helpers that:

- validate the options;
- build the commit-status POST;
- work out a pull-request number from the GitHub Actions variables;
- read a pull request's ticked checkboxes (which tests to run);
- reconcile a shared "common" status. The common status may turn from success to failure, but it is never turned back from failure to success.

This project models the logic of `src/utils.js` and `src/index.js` and proves properties of that model. Nothing is executed.

- `values.dfy` (module `Values`) holds the JavaScript values the code passes around. A property that may be `undefined` is an `Option<string>`. JS truthiness is `Truthy`: `undefined` and `""` are falsy. `a || b` is `Or`, and `${v}` is `Template`, where `undefined` prints as `"undefined"`.
- `jsstring.dfy` (module `JsString`) holds the JS built-ins the core relies on:
  - `includes`;
  - `split` on a one-character separator, proved the inverse of `Join`;
  - `Number(text)` and `parseInt(text, 10)` over decimal text, where `Number` is a non-negative integer or NaN;
  - decimal printing.
- `utils.dfy` (module `Utils`) models `src/utils.js`:
  - Each HTTP call is the request value it would send: a `StatusRequest` for the commit-status POST, a `PullRequestFetch` for the pull-request GET.
  - The `statuses` list that the combined-status GET would return is a parameter.
  - The decisions are pure functions, and they carry the proofs.
  - Small helpers model single source expressions: `IsValidStatus` is `validStatuses.includes(options.status)` (src/utils.js:85); `CommonOptions` is the spread of the caller's options with the common context and the description "Test results" (src/utils.js:189-193 and 212-216); `Message` maps each `Error` to the text the source throws (src/utils.js:9, 12, 15, 21, 91 and 99).
  - The caller's options object is the class `OptionsObject`, because `checkCommonOptions` and `getPullRequestBody` delete a stray `token` from it in place. The methods `CheckCommonOptions`, `SetGitHubCommitStatus`, `SetCommonStatus` and `GetPullRequestBody` do that mutation. Each is proved equal to its pure function.
  - The GitHub Actions variables `GITHUB_WORKFLOW` and `GITHUB_REF` are the `Option<string>` parameters of `GetPullRequestNumber`. An unset variable is `None`.
  - `getTestsToRun` is a loop method (`ForEachLine`, with the `forEach` callback as `VisitLine`), proved against `TagsOf` and `AnySelectsAll`.
- `plugin.dfy` (module `Plugin`) models `src/index.js`:
  - `registerPlugin` returns the list of handlers it would register with `on`.
  - Each handler holds the values it captured: owner, repo, commit, token and the context computed once.
  - `HandlerOptions` is the options literal each handler passes to `setGitHubCommitStatus` (src/index.js:37-45 before the run, 51-59 after it); `HandlerRequest` is the commit-status request that call builds when the event fires.
  - Environment variables (`TEST_COMMIT`, `CIRCLE_BUILD_URL`, `CIRCLE_NODE_INDEX`, `CIRCLE_NODE_TOTAL`) are explicit `Option<string>` parameters. An unset variable is `None`.

Some facts about the code that the model follows:

- The after-run description is `"{totalTests} tests finished"`.
- `registerPlugin` never calls `setCommonStatus`. The `commonStatus` option that `cypress/plugins/index.js` passes is never read.
- Nothing in `src/` posts or updates pull-request comments.
- Only the `CIRCLE_NODE_INDEX`/`CIRCLE_NODE_TOTAL` pair gives the machine suffix.

## Model

| member | source | states |
|---|---|---|
| JsString.Split | src/utils.js:154 | `split` gives at least one part, no part contains the separator, and joining the parts with the separator gives back the input |
| JsString.SplitJoin | src/utils.js:63 | splitting a join of separator-free parts gives back exactly those parts |
| JsString.IncludesWindow | src/utils.js:143 | `s.includes(sub)` holds exactly when some window of `s` as long as `sub` spells `sub` |
| JsString.NatToString | src/index.js:11 | the decimal text of a number is a non-empty digit string with no leading zero |
| JsString.ParseNatToString | src/utils.js:73 | reading a number's decimal text gives back the number |
| JsString.NumberToString | src/index.js:11 | `${x}` of a number is digit text that reads back as that number; only NaN prints as something other than digits |
| JsString.DigitPrefix | src/utils.js:73 | `parseInt` reads the longest prefix of decimal digits: a digit prefix, followed by a non-digit or the end |
| JsString.ParseInt | src/utils.js:73 | `parseInt(s, 10)` is NaN exactly when `s` does not start with a digit |
| JsString.ParseIntOfDigits | src/utils.js:73 | `parseInt` of a whole digit string is that string's decimal value |
| JsString.ToNumber | src/index.js:9-10 | `Number(text)` is a number exactly when the text is all decimal digits |
| Utils.ValidateCommonOptions | src/utils.js:7-17 | fails with "owner required" iff owner is falsy; with "repo required" iff owner is set and repo is falsy; with "token required" iff both are set and `envOptions.token` is falsy; passes iff all three are truthy |
| Utils.CommonOptionsCheck | src/utils.js:83-92 | a failure of the common checks comes first; after them it fails with `Invalid options.status` exactly when status is not one of pending, success, failure, error; it passes exactly when both pass |
| Utils.StripToken | src/utils.js:77-81 | a truthy `token` is removed, a falsy one is left as it is, and no other field changes |
| Utils.OptionsObject.RemoveStrayToken | src/utils.js:77-81 | `delete options.token`, in place and only when the token is truthy |
| Utils.CheckCommonOptions | src/utils.js:76-93 | removes the stray token from the caller's object, then validates the options as they were |
| Utils.StatusRequestFor | src/utils.js:95-131 | the common checks, then the status check, then the commit check, in that order; a request exists iff all pass; it targets `repos/{owner}/{repo}/statuses/{commit}`, sends `Bearer {token}`, and its body copies context, status (as `state`), description and targetUrl (as `target_url`) unchanged |
| Utils.SetGitHubCommitStatus | src/utils.js:95-140 | the method strips the caller's token and yields exactly the request (or the error) of `StatusRequestFor` |
| Utils.StatusRequestIgnoresOptionsToken | src/utils.js:117-130 | a token left in the options object never reaches the request |
| Utils.StatusesUrlSegments | src/utils.js:117 | the statuses URL is the API root, `/repos/`, then a path whose `/`-separated segments are exactly owner, repo, `statuses` and commit |
| Utils.StatusesUrlInjective | src/utils.js:117 | two statuses URLs built from slash-free names are equal only for the same owner, repo and commit |
| Utils.GetPullRequest | src/utils.js:19-39 | fails with `options.pull number is required` exactly when the pull number is falsy (missing, 0 or NaN); succeeds exactly when it is truthy, with the GET of `repos/{owner}/{repo}/pulls/{pull}`, the header `Bearer {envOptions.token}` and the v3 accept header |
| Utils.PullRequestBodyFetch | src/utils.js:42-55 | the common checks first; when they pass, the `getPullRequest` request; the URL holds the validated owner and repo and the token goes in the header |
| Utils.GetPullRequestBody | src/utils.js:42-55 | the method strips the caller's token and yields exactly `PullRequestBodyFetch` of the options as they were |
| Utils.GetPullRequestNumber | src/utils.js:58-74 | no number unless the workflow is exactly "pr"; then a TypeError when GITHUB_REF is unset; no number unless the ref splits into exactly 4 parts; otherwise `parseInt` of part index 2 |
| Utils.PullRequestNumberOfRef | src/utils.js:62-73 | for every ref `a/b/{n}/c` with slash-free parts and every n, the result is n |
| Utils.PullRequestNumberExample | src/utils.js:58-74 | `refs/pull/5/merge` under workflow "pr" gives 5; under workflow "push" it gives nothing |
| Utils.IsLineChecked | src/utils.js:142-144 | a line is ticked exactly when it contains `[x]`, that is, when some three-character window of it spells `[x]` |
| Utils.LineTagsSpec | src/utils.js:142-164 | an unticked line contributes nothing; a ticked line contributes each of "@sanity" and "@user" it mentions, once, "@sanity" first, and nothing else |
| Utils.VisitLine | src/utils.js:155-165 | one line raises `all` exactly when it has both `all tests` and `[x]`, and appends exactly that line's tags |
| Utils.ForEachLine | src/utils.js:155-165 | after the pass over all lines, `all` is true iff some line ticks `all tests`, and `tags` is the concatenation, in line order, of every line's tags |
| Utils.GetTestsToRun | src/utils.js:149-167 | the same two facts for the lines of the pull-request body split on newlines |
| Utils.AnySelectsAllSnoc | src/utils.js:155-158 | one more line raises `all` exactly when that line ticks `all tests` |
| Utils.TagsOfAppend | src/utils.js:155-165 | tags follow line order: the tags of two blocks of lines are the first block's tags followed by the second's |
| Utils.TagsAreKnown | src/utils.js:159-164 | only "@sanity" and "@user" can appear among the tags |
| Utils.TagCount | src/utils.js:159-164 | each tag appears as many times as there are ticked lines that mention it, so duplicates across lines are kept |
| Utils.FirstWithContext | src/utils.js:185 | finds the first status whose context equals the given one, or none exactly when no status has that context |
| Utils.ShouldSend | src/utils.js:186-219 | always send when there is no existing status or it is pending; otherwise send exactly when the existing status is success and the candidate is failure; so an equal state other than pending is never re-sent |
| Utils.CommonStatusRequest | src/utils.js:169-221 | the common checks first; then nothing is sent when the decision table says skip; a request is sent exactly when the checks pass, the decision table says send and the commit is truthy, and it targets the commit's statuses URL with `Bearer {token}`, the common context and description "Test results"; when the table says send and the commit is missing, it fails with `options.commit is required` |
| Utils.ReportIsRecorded | src/utils.js:186-221 | a report the decision table lets through, with valid options and a commit, becomes the common context's latest state, so a success turning into a failure is recorded |
| Utils.SetCommonStatus | src/utils.js:169-221 | the method strips the caller's token, posts through a fresh copy of the options, and yields exactly `CommonStatusRequest` |
| Utils.FailureIsSticky | src/utils.js:186-219 | once the common context's latest state is failure, no series of `setCommonStatus` calls changes it |
| Utils.SuccessOnlyTurnsToFailure | src/utils.js:186-219 | once the common context's latest state is success, it stays success or becomes failure; it never goes back to pending or to error |
| Plugin.GetContext | src/index.js:5-14 | the label always starts with "Cypress tests" and is exactly that unless both node variables are non-empty |
| Plugin.ContextOfMachine | src/index.js:7-11 | with decimal node variables i and n, the label is `Cypress tests (machine {i+1}/{n})` |
| Plugin.ContextExample | src/index.js:5-14 | index 0 and total 4 give "Cypress tests (machine 1/4)"; without an index the label is "Cypress tests" |
| Plugin.ResolveCommit | src/index.js:19-20 | the commit is `options.commit`, else `config.env.testCommit`, else `TEST_COMMIT`, whichever is truthy first |
| Plugin.RegisterPlugin | src/index.js:16-32 | no handler is registered unless the commit, owner and repo are all truthy; otherwise a before-run and an after-run handler that share one capture with the resolved commit and the context computed once |
| Plugin.HandlerRequest | src/index.js:34-61 | for a registered handler, only a missing token makes the request fail; before-run sends pending, "Tests running" and `CIRCLE_BUILD_URL`; after-run sends failure iff `totalFailed > 0` (else success), `"{totalTests} tests finished"`, and `runUrl` if truthy, else `CIRCLE_BUILD_URL`; both target the captured owner, repo and commit |
| Plugin.HandlersShareContext | src/index.js:32-57 | both handlers of one registration report under the same context, the one computed at registration |

## Left out

- HTTP through `got` is left out: the POST and the GETs, status codes and `JSON.parse` of responses. A POST or a pull-request GET is the request value it would send. The body that `getPullRequestBody` returns is not modelled. The `statuses` list a GET would fetch is a parameter, and a missing list (`|| []`) is passed as the empty sequence.
- `setCommonStatus` sends its combined-status GET before it checks the commit. That GET targets `.../commits/undefined/status`, and its failure is not modelled.
- `Utils.FailureIsSticky` and `Utils.SuccessOnlyTurnsToFailure` rest on a model of GitHub: a posted status becomes the newest entry, which is found first. They concern reports for one commit.
- Logging through `console` and `debug` is left out: it has no effect on results.
- The demo block run under `!module.parent` is left out: it is a hard-coded invocation.
- `bin/add-to-comment.js` and `bin/set-gh-status.js` are left out. They are CLI parsing and `process.exit`, and they import functions the modules do not export. So comment upserting and outcome-to-status mapping are not part of this model.
- `cypress.config.js` and `cypress/plugins/index.js` are configuration glue and are left out.
- Registering with `on` and the asynchronous running of the handlers are left out. Registration is the list of handlers. A handler firing is `HandlerRequest`, which reads `CIRCLE_BUILD_URL` from the environment it is given when it fires.
- JS `Number` and `parseInt` are modelled over decimal digits only. Leading whitespace, signs, hexadecimal, exponents and fractions are not read. `Number` of any other text is NaN, and a number is a non-negative integer or NaN.
- Utils.PullRequestNumberOfRef and Plugin.ContextOfMachine hold for every n only in the model. JS numbers are doubles, while the model's numbers are unbounded naturals. Above 2^53 the source loses precision: `parseInt("9007199254740993", 10)` at src/utils.js:73 is 9007199254740992. From 1e21 on, `${x}` at src/index.js:11 prints exponent notation such as `1e+21`, while `NatToString` prints every digit. In the source `Utils.PullRequestNumberOfRef` holds for n ≤ 2^53, and `Plugin.ContextOfMachine` holds for index < 2^53 and total ≤ 2^53: at index 2^53, `Number(...) + 1` at src/index.js:9 rounds back to the index itself.
- Options fields are strings or `undefined`. Other JS value types are not modelled: a number as owner, a string pull number, a non-string `testCommit`. Run-result counts are non-negative integers.
- Utils.GetTestsToRun takes the pull-request body as a string. A pull request without a description has `body: null`, and `split` at src/utils.js:154 then throws a TypeError; the model does not capture that case.
