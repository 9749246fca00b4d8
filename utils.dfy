/** The commit-status and pull-request helpers of src/utils.js: option
    validation, the commit-status POST each call would send, the pull-request
    GET, the GitHub-ref parser, the checkbox parser over a pull-request body
    and the common-status reconciliation. Every HTTP call is the request value
    it would send; the statuses a GET would fetch are an input. */
module Utils {
  import opened Values
  import opened JsString

  const ValidStatuses: seq<string> := ["pending", "success", "failure", "error"]
  const ApiRoot: string := "https://api.github.com"

  /** The options object callers pass; every field may be left undefined. */
  datatype Options = Options(
    owner: Option<string>,
    repo: Option<string>,
    commit: Option<string>,
    status: Option<string>,
    description: Option<string>,
    context: Option<string>,
    targetUrl: Option<string>,
    token: Option<string>,
    pull: Option<Number>)

  /** The second, environment options object: only the token is read. */
  datatype EnvOptions = EnvOptions(token: Option<string>)

  /** The errors the helpers throw. */
  datatype Error =
    | OwnerRequired
    | RepoRequired
    | TokenRequired
    | InvalidStatus
    | CommitRequired
    | PullRequired
    | RefUndefined // `split` called on an undefined GITHUB_REF (a TypeError)

  function Message(e: Error): string
  {
    match e
    case OwnerRequired => "options.owner is required"
    case RepoRequired => "options.repo is required"
    case TokenRequired => "envOptions.token is required"
    case InvalidStatus => "Invalid options.status"
    case CommitRequired => "options.commit is required"
    case PullRequired => "options.pull number is required"
    case RefUndefined => "Cannot read properties of undefined (reading 'split')"
  }

  /** The JSON body of a commit-status POST. */
  datatype StatusBody = StatusBody(
    context: Option<string>,
    state: Option<string>,
    description: Option<string>,
    targetUrl: Option<string>)

  /** A commit-status POST: target URL, authorization header and JSON body. */
  datatype StatusRequest = StatusRequest(url: string, authorization: string, body: StatusBody)

  /** A pull-request GET: target URL, authorization and accept headers. */
  datatype PullRequestFetch = PullRequestFetch(url: string, authorization: string, accept: string)

  /** One entry of the `statuses` list the combined-status GET returns. */
  datatype Status = Status(context: string, state: string)

  function Bearer(token: Option<string>): string
  {
    "Bearer " + Template(token)
  }

  // --- validation -----------------------------------------------------------

  /** `validateCommonOptions`: owner, then repo, then the token, each must be truthy. */
  function ValidateCommonOptions(options: Options, envOptions: EnvOptions): (r: Outcome<Error>)
    ensures r == Fail(OwnerRequired) <==> !Truthy(options.owner)
    ensures r == Fail(RepoRequired) <==> Truthy(options.owner) && !Truthy(options.repo)
    ensures r == Fail(TokenRequired) <==>
      Truthy(options.owner) && Truthy(options.repo) && !Truthy(envOptions.token)
    ensures r == Pass <==>
      Truthy(options.owner) && Truthy(options.repo) && Truthy(envOptions.token)
  {
    if !Truthy(options.owner) then Fail(OwnerRequired)
    else if !Truthy(options.repo) then Fail(RepoRequired)
    else if !Truthy(envOptions.token) then Fail(TokenRequired)
    else Pass
  }

  /** `validStatuses.includes(options.status)`. */
  predicate IsValidStatus(status: Option<string>)
  {
    status.Some? && status.value in ValidStatuses
  }

  /** The check `checkCommonOptions` makes: the common options, then the status. */
  function CommonOptionsCheck(options: Options, envOptions: EnvOptions): (r: Outcome<Error>)
    ensures ValidateCommonOptions(options, envOptions).Fail? ==>
      r == ValidateCommonOptions(options, envOptions)
    ensures r == Fail(InvalidStatus) <==>
      ValidateCommonOptions(options, envOptions) == Pass && !IsValidStatus(options.status)
    ensures r == Pass <==>
      ValidateCommonOptions(options, envOptions) == Pass && IsValidStatus(options.status)
    ensures r == Pass ==> options.status.value in {"pending", "success", "failure", "error"}
  {
    var common := ValidateCommonOptions(options, envOptions);
    if common.Fail? then common
    else if !IsValidStatus(options.status) then Fail(InvalidStatus)
    else Pass
  }

  /** The token a caller put into the wrong object, removed when it is truthy. */
  function StripToken(options: Options): (r: Options)
    ensures !Truthy(r.token)
    ensures Truthy(options.token) ==> r.token == None
    ensures !Truthy(options.token) ==> r == options
    ensures r.(token := options.token) == options
  {
    if Truthy(options.token) then options.(token := None) else options
  }

  // --- commit status --------------------------------------------------------

  /** `repos/{owner}/{repo}/statuses/{commit}` under the API root. */
  function StatusesUrl(owner: string, repo: string, commit: string): string
  {
    ApiRoot + "/repos/" + owner + "/" + repo + "/statuses/" + commit
  }

  /** What `setGitHubCommitStatus` does with its options: the common checks,
      the status check and the commit check, in that order; only when all of
      them pass is there a request, and it copies the options unchanged. */
  function StatusRequestFor(options: Options, envOptions: EnvOptions): (r: Result<StatusRequest, Error>)
    ensures CommonOptionsCheck(options, envOptions).Fail? ==>
      r == Failure(CommonOptionsCheck(options, envOptions).error)
    ensures r == Failure(CommitRequired) <==>
      CommonOptionsCheck(options, envOptions) == Pass && !Truthy(options.commit)
    ensures r.Success? <==>
      CommonOptionsCheck(options, envOptions) == Pass && Truthy(options.commit)
    ensures r.Success? ==>
      && r.value.url == StatusesUrl(options.owner.value, options.repo.value, options.commit.value)
      && r.value.authorization == "Bearer " + envOptions.token.value
      && r.value.body == StatusBody(options.context, options.status, options.description, options.targetUrl)
      && r.value.body.state.value in ValidStatuses
  {
    var check := CommonOptionsCheck(options, envOptions);
    if check.Fail? then Failure(check.error)
    else if !Truthy(options.commit) then Failure(CommitRequired)
    else
      var url := ApiRoot + "/repos/" + Template(options.owner) + "/" + Template(options.repo)
        + "/statuses/" + Template(options.commit);
      Success(StatusRequest(url, Bearer(envOptions.token),
        StatusBody(options.context, options.status, options.description, options.targetUrl)))
  }

  /** The request never depends on a token left in the options object. */
  lemma StatusRequestIgnoresOptionsToken(options: Options, envOptions: EnvOptions)
    ensures StatusRequestFor(StripToken(options), envOptions) == StatusRequestFor(options, envOptions)
  {
  }

  /** The statuses URL is the API root, then `/repos/`, then the path
      `{owner}/{repo}/statuses/{commit}`, whose `/`-separated segments are
      exactly the owner, the repository, "statuses" and the commit. */
  lemma StatusesUrlSegments(owner: string, repo: string, commit: string)
    requires '/' !in owner && '/' !in repo && '/' !in commit
    ensures var path := Join([owner, repo, "statuses", commit], '/');
      && StatusesUrl(owner, repo, commit) == ApiRoot + "/repos/" + path
      && Split(path, '/') == [owner, repo, "statuses", commit]
  {
    StatusesPath(owner, repo, commit);
    var parts := [owner, repo, "statuses", commit];
    assert '/' !in parts[2];
    assert forall k :: 0 <= k < 4 ==> '/' !in parts[k];
    SplitJoin(parts, '/');
  }

  lemma StatusesPath(owner: string, repo: string, commit: string)
    ensures StatusesUrl(owner, repo, commit)
      == ApiRoot + "/repos/" + Join([owner, repo, "statuses", commit], '/')
  {
    var parts := [owner, repo, "statuses", commit];
    JoinCons("statuses", [commit], '/');
    JoinCons(repo, parts[2..], '/');
    JoinCons(owner, parts[1..], '/');
    assert parts == [owner] + parts[1..];
    assert "/statuses/" + commit == "/" + ("statuses" + "/" + commit);
  }

  /** Two statuses URLs are equal only for the same owner, repository and commit. */
  lemma StatusesUrlInjective(owner: string, repo: string, commit: string,
                             owner': string, repo': string, commit': string)
    requires '/' !in owner && '/' !in repo && '/' !in commit
    requires '/' !in owner' && '/' !in repo' && '/' !in commit'
    requires StatusesUrl(owner, repo, commit) == StatusesUrl(owner', repo', commit')
    ensures owner == owner' && repo == repo' && commit == commit'
  {
    StatusesUrlSegments(owner, repo, commit);
    StatusesUrlSegments(owner', repo', commit');
    var prefix := ApiRoot + "/repos/";
    var path := Join([owner, repo, "statuses", commit], '/');
    var path' := Join([owner', repo', "statuses", commit'], '/');
    assert path == (prefix + path)[|prefix|..];
    assert path' == (prefix + path')[|prefix|..];
    assert Split(path, '/') == Split(path', '/');
  }

  // --- pull requests --------------------------------------------------------

  /** `getPullRequest`: the pull-request number must be truthy (not 0, not NaN);
      then the GET of `repos/{owner}/{repo}/pulls/{pull}`. */
  function GetPullRequest(options: Options, envOptions: EnvOptions): (r: Result<PullRequestFetch, Error>)
    ensures r == Failure(PullRequired) <==> !NumberTruthy(options.pull)
    ensures r.Success? <==> NumberTruthy(options.pull)
    ensures r.Success? ==>
      && r.value.authorization == Bearer(envOptions.token)
      && r.value.url == ApiRoot + "/repos/" + Template(options.owner) + "/" + Template(options.repo)
           + "/pulls/" + NatToString(options.pull.value.n)
      && r.value.accept == "application/vnd.github.v3+json"
  {
    if !NumberTruthy(options.pull) then Failure(PullRequired)
    else
      var url := ApiRoot + "/repos/" + Template(options.owner) + "/" + Template(options.repo)
        + "/pulls/" + NumberToString(options.pull.value);
      Success(PullRequestFetch(url, Bearer(envOptions.token), "application/vnd.github.v3+json"))
  }

  /** What `getPullRequestBody` fetches: the common checks first, then `getPullRequest`. */
  function PullRequestBodyFetch(options: Options, envOptions: EnvOptions): (r: Result<PullRequestFetch, Error>)
    ensures ValidateCommonOptions(options, envOptions).Fail? ==>
      r == Failure(ValidateCommonOptions(options, envOptions).error)
    ensures ValidateCommonOptions(options, envOptions) == Pass ==>
      r == GetPullRequest(options, envOptions)
    ensures r.Success? ==>
      r.value.url == ApiRoot + "/repos/" + options.owner.value + "/" + options.repo.value
        + "/pulls/" + NatToString(options.pull.value.n)
      && r.value.authorization == "Bearer " + envOptions.token.value
  {
    var common := ValidateCommonOptions(options, envOptions);
    if common.Fail? then Failure(common.error) else GetPullRequest(options, envOptions)
  }

  /** `getPullRequestNumber`, with GITHUB_WORKFLOW and GITHUB_REF as parameters:
      nothing unless the workflow is exactly "pr"; then nothing unless the ref
      has exactly four `/`-separated parts; then `parseInt` of the third. */
  function GetPullRequestNumber(workflow: Option<string>, ref: Option<string>): (r: Result<Option<Number>, Error>)
    ensures workflow != Some("pr") ==> r == Success(None)
    ensures workflow == Some("pr") && ref.None? ==> r == Failure(RefUndefined)
    ensures workflow == Some("pr") && ref.Some? ==>
      r == Success(if |Split(ref.value, '/')| == 4 then Some(ParseInt(Split(ref.value, '/')[2])) else None)
  {
    if workflow != Some("pr") then Success(None)
    else if ref.None? then Failure(RefUndefined)
    else
      var parts := Split(ref.value, '/');
      if |parts| != 4 then Success(None)
      else Success(Some(ParseInt(parts[2])))
  }

  /** A four-part ref such as "refs/pull/5/merge" yields the number in its third part. */
  lemma PullRequestNumberOfRef(head: string, kind: string, n: nat, tail: string)
    requires '/' !in head && '/' !in kind && '/' !in tail
    ensures GetPullRequestNumber(Some("pr"), Some(head + "/" + kind + "/" + NatToString(n) + "/" + tail))
      == Success(Some(Num(n)))
  {
    var number := NatToString(n);
    var parts := [head, kind, number, tail];
    assert '/' !in number;
    assert Join(parts, '/') == head + "/" + kind + "/" + number + "/" + tail by {
      assert Join(parts[3..], '/') == tail;
      assert Join(parts[2..], '/') == number + "/" + tail;
      assert Join(parts[1..], '/') == kind + "/" + number + "/" + tail;
    }
    forall k | 0 <= k < 4 ensures '/' !in parts[k] { }
    SplitJoin(parts, '/');
    ParseIntOfDigits(number);
    ParseNatToString(n);
  }

  lemma PullRequestNumberExample()
    ensures GetPullRequestNumber(Some("pr"), Some("refs/pull/5/merge")) == Success(Some(Num(5)))
    ensures GetPullRequestNumber(Some("push"), Some("refs/pull/5/merge")) == Success(None)
  {
    PullRequestNumberOfRef("refs", "pull", 5, "merge");
    assert "refs" + "/" + "pull" + "/" + NatToString(5) + "/" + "merge" == "refs/pull/5/merge";
  }

  // --- tests selected in a pull-request body --------------------------------

  /** What `getTestsToRun` returns. */
  datatype TestsToRun = TestsToRun(all: bool, tags: seq<string>)

  /** `isLineChecked`: the line holds a ticked checkbox. */
  predicate IsLineChecked(line: string): (checked: bool)
    ensures checked <==> exists i :: OccursAt(line, "[x]", i)
  {
    IncludesWindow(line, "[x]");
    Includes(line, "[x]")
  }

  /** A ticked line that mentions all tests. */
  predicate SelectsAll(line: string)
  {
    Includes(line, "all tests") && IsLineChecked(line)
  }

  predicate SelectsTag(line: string, tag: string)
  {
    Includes(line, tag) && IsLineChecked(line)
  }

  /** The tags one line contributes, in the order `getTestsToRun` tests them. */
  function LineTags(line: string): seq<string>
  {
    (if SelectsTag(line, "@sanity") then ["@sanity"] else [])
    + (if SelectsTag(line, "@user") then ["@user"] else [])
  }

  /** An unticked line contributes nothing; a ticked line contributes each
      tag it mentions once, "@sanity" before "@user", and no other tag. */
  lemma LineTagsSpec(line: string)
    ensures !IsLineChecked(line) ==> LineTags(line) == []
    ensures "@sanity" in LineTags(line) <==> SelectsTag(line, "@sanity")
    ensures "@user" in LineTags(line) <==> SelectsTag(line, "@user")
    ensures forall t :: t in LineTags(line) ==> t == "@sanity" || t == "@user"
    ensures LineTags(line) == ["@sanity", "@user"] <==> SelectsTag(line, "@sanity") && SelectsTag(line, "@user")
    ensures multiset(LineTags(line))["@sanity"] <= 1 && multiset(LineTags(line))["@user"] <= 1
  {
  }

  /** The tags of all lines, in line order. */
  function TagsOf(lines: seq<string>): seq<string>
  {
    if lines == [] then [] else TagsOf(lines[..|lines| - 1]) + LineTags(lines[|lines| - 1])
  }

  lemma TagsOfSnoc(lines: seq<string>, line: string)
    ensures TagsOf(lines + [line]) == TagsOf(lines) + LineTags(line)
  {
    assert (lines + [line])[..|lines|] == lines;
  }

  /** Some line of the body ticks "all tests". */
  predicate AnySelectsAll(lines: seq<string>)
  {
    exists k :: 0 <= k < |lines| && SelectsAll(lines[k])
  }

  lemma AnySelectsAllSnoc(lines: seq<string>, line: string)
    ensures AnySelectsAll(lines + [line]) <==> AnySelectsAll(lines) || SelectsAll(line)
  {
    var all := lines + [line];
    if AnySelectsAll(lines) {
      var k :| 0 <= k < |lines| && SelectsAll(lines[k]);
      assert all[k] == lines[k];
    }
    if SelectsAll(line) {
      assert all[|lines|] == line;
    }
    if AnySelectsAll(all) {
      var k :| 0 <= k < |all| && SelectsAll(all[k]);
      if k < |lines| {
        assert all[k] == lines[k];
      }
    }
  }

  /** The number of lines that tick `tag`. */
  function CountSelecting(lines: seq<string>, tag: string): nat
  {
    if lines == [] then 0
    else CountSelecting(lines[..|lines| - 1], tag) + (if SelectsTag(lines[|lines| - 1], tag) then 1 else 0)
  }

  /** The `forEach` callback of `getTestsToRun` for one line: raises `all`
      when the line ticks "all tests" and appends the tags the line ticks. */
  method VisitLine(line: string, all: bool, tags: seq<string>) returns (all': bool, tags': seq<string>)
    ensures all' == (all || SelectsAll(line))
    ensures tags' == tags + LineTags(line)
  {
    all', tags' := all, tags;
    if Includes(line, "all tests") && IsLineChecked(line) {
      all' := true;
    }
    if Includes(line, "@sanity") && IsLineChecked(line) {
      tags' := tags' + ["@sanity"];
    }
    if Includes(line, "@user") && IsLineChecked(line) {
      tags' := tags' + ["@user"];
    }
  }

  /** `lines.forEach(...)` in `getTestsToRun`: one pass over the lines,
      raising the `all` flag and appending the tags of each ticked line in turn. */
  method ForEachLine(lines: seq<string>) returns (r: TestsToRun)
    ensures r.all == AnySelectsAll(lines)
    ensures r.tags == TagsOf(lines)
  {
    var all := false;
    var tags: seq<string> := [];
    var i := 0;
    while i < |lines|
      invariant 0 <= i <= |lines|
      invariant all == AnySelectsAll(lines[..i])
      invariant tags == TagsOf(lines[..i])
    {
      TagsOfSnoc(lines[..i], lines[i]);
      AnySelectsAllSnoc(lines[..i], lines[i]);
      assert lines[..i] + [lines[i]] == lines[..i + 1];
      all, tags := VisitLine(lines[i], all, tags);
      i := i + 1;
    }
    assert lines[..i] == lines;
    r := TestsToRun(all, tags);
  }

  /** `getTestsToRun`: the body split into lines, then the pass over them. */
  method GetTestsToRun(pullRequestBody: string) returns (r: TestsToRun)
    ensures r.all == AnySelectsAll(Split(pullRequestBody, '\n'))
    ensures r.tags == TagsOf(Split(pullRequestBody, '\n'))
  {
    var lines := Split(pullRequestBody, '\n');
    r := ForEachLine(lines);
  }

  /** Tags follow line order: the tags of a body split in two are the tags of
      the first part followed by those of the second. */
  lemma {:induction false} TagsOfAppend(a: seq<string>, b: seq<string>)
    ensures TagsOf(a + b) == TagsOf(a) + TagsOf(b)
    decreases |b|
  {
    if b != [] {
      var b' := b[..|b| - 1];
      assert (a + b)[..|a + b| - 1] == a + b';
      TagsOfAppend(a, b');
    } else {
      assert a + b == a;
    }
  }

  /** Only "@sanity" and "@user" can be selected. */
  lemma {:induction false} TagsAreKnown(lines: seq<string>)
    ensures forall t :: t in TagsOf(lines) ==> t == "@sanity" || t == "@user"
    decreases |lines|
  {
    if lines != [] {
      TagsAreKnown(lines[..|lines| - 1]);
      LineTagsSpec(lines[|lines| - 1]);
    }
  }

  /** Each ticked line that mentions a tag contributes it once, so a tag ticked
      on several lines appears that many times. */
  lemma {:induction false} TagCount(lines: seq<string>, tag: string)
    requires tag == "@sanity" || tag == "@user"
    ensures multiset(TagsOf(lines))[tag] == CountSelecting(lines, tag)
    decreases |lines|
  {
    if lines != [] {
      var last := lines[|lines| - 1];
      TagCount(lines[..|lines| - 1], tag);
      LineTagsSpec(last);
      assert multiset(LineTags(last))[tag] == if SelectsTag(last, tag) then 1 else 0;
    }
  }

  // --- the common status ----------------------------------------------------

  /** `statuses.find(s => s.context === context)`, as the index of the first match. */
  function FirstWithContext(statuses: seq<Status>, context: string): (r: Option<nat>)
    ensures r.None? <==> forall i :: 0 <= i < |statuses| ==> statuses[i].context != context
    ensures r.Some? ==>
      && r.value < |statuses|
      && statuses[r.value].context == context
      && forall j :: 0 <= j < r.value ==> statuses[j].context != context
  {
    if statuses == [] then None
    else if statuses[0].context == context then Some(0)
    else match FirstWithContext(statuses[1..], context)
      case None => None
      case Some(k) => Some(k + 1)
  }

  /** The state of the first status with the given context, if there is one. */
  function CurrentState(statuses: seq<Status>, context: string): Option<string>
  {
    match FirstWithContext(statuses, context)
    case None => None
    case Some(i) => Some(statuses[i].state)
  }

  /** The decision table of `setCommonStatus`: send when there is no status
      yet or it is pending; otherwise only a success turning into a failure. */
  function ShouldSend(existing: Option<string>, candidate: string): (send: bool)
    ensures existing.None? ==> send
    ensures existing == Some("pending") ==> send
    ensures existing.Some? && existing.value != "pending" ==>
      (send <==> existing.value == "success" && candidate == "failure")
  {
    if existing.None? || existing.value == "pending" then true
    else if existing.value == candidate then false
    else if existing.value == "success" && candidate == "failure" then true
    else false
  }

  /** The options `setCommonStatus` hands on: its own with the common context
      and the fixed description. */
  function CommonOptions(context: string, options: Options): Options
  {
    options.(context := Some(context), description := Some("Test results"))
  }

  /** What `setCommonStatus` sends, given the statuses the commit already has:
      after the common checks, either nothing or the commit-status request for
      the options with the common context and the description "Test results". */
  function CommonStatusRequest(context: string, options: Options, envOptions: EnvOptions,
                               statuses: seq<Status>): (r: Result<Option<StatusRequest>, Error>)
    ensures CommonOptionsCheck(options, envOptions).Fail? ==>
      r == Failure(CommonOptionsCheck(options, envOptions).error)
    ensures (CommonOptionsCheck(options, envOptions) == Pass &&
             !ShouldSend(CurrentState(statuses, context), options.status.value)) ==> r == Success(None)
    ensures (CommonOptionsCheck(options, envOptions) == Pass &&
             ShouldSend(CurrentState(statuses, context), options.status.value)) ==>
      (r == Failure(CommitRequired) <==> !Truthy(options.commit))
    ensures r.Success? && r.value.Some? <==>
      && CommonOptionsCheck(options, envOptions) == Pass
      && ShouldSend(CurrentState(statuses, context), options.status.value)
      && Truthy(options.commit)
    ensures r.Success? && r.value.Some? ==>
      && r.value.value.url == StatusesUrl(options.owner.value, options.repo.value, options.commit.value)
      && r.value.value.authorization == "Bearer " + envOptions.token.value
      && r.value.value.body == StatusBody(Some(context), options.status, Some("Test results"), options.targetUrl)
  {
    var check := CommonOptionsCheck(options, envOptions);
    if check.Fail? then Failure(check.error)
    else if ShouldSend(CurrentState(statuses, context), options.status.value) then
      match StatusRequestFor(CommonOptions(context, options), envOptions)
      case Success(request) => Success(Some(request))
      case Failure(e) => Failure(e)
    else Success(None)
  }

  /** The platform's view after a status is posted: it becomes the newest entry. */
  function Posted(statuses: seq<Status>, request: StatusRequest): seq<Status>
  {
    [Status(Template(request.body.context), Template(request.body.state))] + statuses
  }

  /** A series of `setCommonStatus` calls for one commit, each seeing what the
      earlier ones posted. */
  function ReconcileAll(statuses: seq<Status>, context: string, reports: seq<Options>,
                        envOptions: EnvOptions): seq<Status>
    decreases |reports|
  {
    if reports == [] then statuses
    else
      var next :=
        match CommonStatusRequest(context, reports[0], envOptions, statuses)
        case Success(Some(request)) => Posted(statuses, request)
        case _ => statuses;
      ReconcileAll(next, context, reports[1..], envOptions)
  }

  /** A report the decision table lets through, with valid options and a
      commit, becomes the common context's latest state: a success turning
      into a failure, in particular, is recorded. */
  lemma ReportIsRecorded(statuses: seq<Status>, context: string, report: Options, envOptions: EnvOptions)
    requires CommonOptionsCheck(report, envOptions) == Pass && Truthy(report.commit)
    requires ShouldSend(CurrentState(statuses, context), report.status.value)
    ensures CurrentState(ReconcileAll(statuses, context, [report], envOptions), context) == report.status
  {
  }

  /** A failed common status stays failed, whatever is reported after it. */
  lemma {:induction false} FailureIsSticky(statuses: seq<Status>, context: string,
                                           reports: seq<Options>, envOptions: EnvOptions)
    requires CurrentState(statuses, context) == Some("failure")
    ensures CurrentState(ReconcileAll(statuses, context, reports, envOptions), context) == Some("failure")
    decreases |reports|
  {
    if reports != [] {
      var r := CommonStatusRequest(context, reports[0], envOptions, statuses);
      assert !(r.Success? && r.value.Some?);
      FailureIsSticky(statuses, context, reports[1..], envOptions);
    }
  }

  /** A successful common status never goes back to pending (or to error); it
      either stays a success or turns into a failure. */
  lemma {:induction false} SuccessOnlyTurnsToFailure(statuses: seq<Status>, context: string,
                                                     reports: seq<Options>, envOptions: EnvOptions)
    requires CurrentState(statuses, context) == Some("success")
    ensures CurrentState(ReconcileAll(statuses, context, reports, envOptions), context)
      in {Some("success"), Some("failure")}
    decreases |reports|
  {
    if reports != [] {
      var r := CommonStatusRequest(context, reports[0], envOptions, statuses);
      if r.Success? && r.value.Some? {
        var next := Posted(statuses, r.value.value);
        assert next[0] == Status(context, "failure");
        assert CurrentState(next, context) == Some("failure");
        FailureIsSticky(next, context, reports[1..], envOptions);
      } else {
        SuccessOnlyTurnsToFailure(statuses, context, reports[1..], envOptions);
      }
    }
  }

  // --- the caller's options object ------------------------------------------

  /** The options object as the caller holds it: `checkCommonOptions` and
      `getPullRequestBody` delete a truthy `token` from it in place. */
  class OptionsObject {
    var owner: Option<string>
    var repo: Option<string>
    var commit: Option<string>
    var status: Option<string>
    var description: Option<string>
    var context: Option<string>
    var targetUrl: Option<string>
    var token: Option<string>
    var pull: Option<Number>

    function Value(): Options
      reads this
    {
      Options(owner, repo, commit, status, description, context, targetUrl, token, pull)
    }

    constructor (o: Options)
      ensures Value() == o
    {
      owner, repo, commit, status := o.owner, o.repo, o.commit, o.status;
      description, context, targetUrl := o.description, o.context, o.targetUrl;
      token, pull := o.token, o.pull;
    }

    /** `delete options.token` when the token is truthy. */
    method RemoveStrayToken()
      modifies this
      ensures Value() == StripToken(old(Value()))
    {
      if Truthy(token) {
        token := None;
      }
    }
  }

  /** `checkCommonOptions`: removes a stray token, then validates. */
  method CheckCommonOptions(options: OptionsObject, envOptions: EnvOptions) returns (r: Outcome<Error>)
    modifies options
    ensures options.Value() == StripToken(old(options.Value()))
    ensures r == CommonOptionsCheck(old(options.Value()), envOptions)
  {
    options.RemoveStrayToken();
    var common := ValidateCommonOptions(options.Value(), envOptions);
    if common.Fail? {
      return common;
    }
    if !IsValidStatus(options.status) {
      return Fail(InvalidStatus);
    }
    r := Pass;
  }

  /** `setGitHubCommitStatus`: the checks, then the POST it would send. */
  method SetGitHubCommitStatus(options: OptionsObject, envOptions: EnvOptions)
    returns (r: Result<StatusRequest, Error>)
    modifies options
    ensures options.Value() == StripToken(old(options.Value()))
    ensures r == StatusRequestFor(old(options.Value()), envOptions)
  {
    var check := CheckCommonOptions(options, envOptions);
    if check.Fail? {
      return Failure(check.error);
    }
    if !Truthy(options.commit) {
      return Failure(CommitRequired);
    }
    var url := ApiRoot + "/repos/" + Template(options.owner) + "/" + Template(options.repo)
      + "/statuses/" + Template(options.commit);
    r := Success(StatusRequest(url, Bearer(envOptions.token),
      StatusBody(options.context, options.status, options.description, options.targetUrl)));
  }

  /** `setCommonStatus`: the checks, the lookup of the existing common status
      in the fetched `statuses`, and a POST through a fresh copy of the options. */
  method SetCommonStatus(context: string, options: OptionsObject, envOptions: EnvOptions,
                         statuses: seq<Status>) returns (r: Result<Option<StatusRequest>, Error>)
    modifies options
    ensures options.Value() == StripToken(old(options.Value()))
    ensures r == CommonStatusRequest(context, old(options.Value()), envOptions, statuses)
  {
    var check := CheckCommonOptions(options, envOptions);
    if check.Fail? {
      return Failure(check.error);
    }
    if ShouldSend(CurrentState(statuses, context), options.status.value) {
      var copy := new OptionsObject(CommonOptions(context, options.Value()));
      var sent := SetGitHubCommitStatus(copy, envOptions);
      StatusRequestIgnoresOptionsToken(CommonOptions(context, old(options.Value())), envOptions);
      match sent
      case Success(request) => r := Success(Some(request));
      case Failure(e) => r := Failure(e);
    } else {
      r := Success(None);
    }
  }

  /** `getPullRequestBody`: removes a stray token, validates, then the GET it would send. */
  method GetPullRequestBody(options: OptionsObject, envOptions: EnvOptions)
    returns (r: Result<PullRequestFetch, Error>)
    modifies options
    ensures options.Value() == StripToken(old(options.Value()))
    ensures r == PullRequestBodyFetch(old(options.Value()), envOptions)
  {
    options.RemoveStrayToken();
    var common := ValidateCommonOptions(options.Value(), envOptions);
    if common.Fail? {
      return Failure(common.error);
    }
    r := GetPullRequest(options.Value(), envOptions);
  }
}
