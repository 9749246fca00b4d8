/** The test-runner plugin of src/index.js: the context label, the commit
    chosen for reporting, whether the two lifecycle handlers are registered at
    all, and the commit-status request each handler builds when it fires.
    Registration is the list of handlers it would hand to `on`. */
module Plugin {
  import opened Values
  import opened JsString
  import opened Utils

  const BaseContext: string := "Cypress tests"

  /** The options passed to the plugin (only the fields it reads). */
  datatype PluginOptions = PluginOptions(
    commit: Option<string>,
    owner: Option<string>,
    repo: Option<string>,
    token: Option<string>)

  /** The process environment variables the plugin reads. */
  datatype ProcessEnv = ProcessEnv(
    testCommit: Option<string>,       // TEST_COMMIT
    circleBuildUrl: Option<string>,   // CIRCLE_BUILD_URL
    circleNodeIndex: Option<string>,  // CIRCLE_NODE_INDEX
    circleNodeTotal: Option<string>)  // CIRCLE_NODE_TOTAL

  /** The part of the runner's run results the after-run handler reads. */
  datatype RunResults = RunResults(totalTests: nat, totalFailed: nat, runUrl: Option<string>)

  datatype Event = BeforeRun | AfterRun

  /** The values a handler captures when it is registered. */
  datatype Capture = Capture(owner: string, repo: string, commit: string, token: Option<string>, context: string)

  datatype Handler = Handler(event: Event, capture: Capture)

  /** `getContext`: the base label, with " (machine i/n)" when both the node
      index and the node total are set; the index counts from 0, the label from 1. */
  function GetContext(nodeIndex: Option<string>, nodeTotal: Option<string>): (r: string)
    ensures BaseContext <= r
    ensures r == BaseContext <==> !(Truthy(nodeIndex) && Truthy(nodeTotal))
  {
    var context := BaseContext;
    if Truthy(nodeIndex) && Truthy(nodeTotal) then
      var machineIndex := Plus(ToNumber(nodeIndex.value), 1);
      var totalMachines := ToNumber(nodeTotal.value);
      context + " (machine " + NumberToString(machineIndex) + "/" + NumberToString(totalMachines) + ")"
    else
      context
  }

  /** With decimal node variables, the label shows the one-based machine number and the total. */
  lemma ContextOfMachine(index: nat, total: nat)
    ensures GetContext(Some(NatToString(index)), Some(NatToString(total)))
      == BaseContext + " (machine " + NatToString(index + 1) + "/" + NatToString(total) + ")"
  {
    var i, n := NatToString(index), NatToString(total);
    ParseNatToString(index);
    ParseNatToString(total);
    assert ToNumber(i) == Num(index);
    assert ToNumber(n) == Num(total);
    assert NumberToString(Plus(ToNumber(i), 1)) == NatToString(index + 1);
    assert NumberToString(ToNumber(n)) == NatToString(total);
  }

  lemma ContextExample()
    ensures GetContext(Some("0"), Some("4")) == "Cypress tests (machine 1/4)"
    ensures GetContext(None, Some("4")) == "Cypress tests"
  {
    ContextOfMachine(0, 4);
    assert NatToString(1) == "1";
    assert NatToString(4) == "4";
    assert BaseContext + " (machine " + "1" + "/" + "4" + ")" == "Cypress tests (machine 1/4)";
  }

  /** `options.commit || config.env.testCommit || process.env.TEST_COMMIT`. */
  function ResolveCommit(optionsCommit: Option<string>, configTestCommit: Option<string>,
                         envTestCommit: Option<string>): (r: Option<string>)
    ensures Truthy(optionsCommit) ==> r == optionsCommit
    ensures !Truthy(optionsCommit) && Truthy(configTestCommit) ==> r == configTestCommit
    ensures !Truthy(optionsCommit) && !Truthy(configTestCommit) ==> r == envTestCommit
    ensures Truthy(r) <==> Truthy(optionsCommit) || Truthy(configTestCommit) || Truthy(envTestCommit)
  {
    Or(Or(optionsCommit, configTestCommit), envTestCommit)
  }

  /** A capture as registration makes it: owner, repository and commit are non-empty. */
  predicate ValidCapture(c: Capture)
  {
    c.owner != "" && c.repo != "" && c.commit != ""
  }

  /** `registerPlugin`: the handlers it registers. Both or none, and both
      share the values (among them the context) computed once here. */
  function RegisterPlugin(options: PluginOptions, configTestCommit: Option<string>, env: ProcessEnv)
    : (handlers: seq<Handler>)
    ensures var commit := ResolveCommit(options.commit, configTestCommit, env.testCommit);
      handlers == [] <==> !(Truthy(commit) && Truthy(options.owner) && Truthy(options.repo))
    ensures handlers != [] ==>
      && |handlers| == 2
      && handlers[0].event == BeforeRun
      && handlers[1].event == AfterRun
      && handlers[0].capture == handlers[1].capture
      && ValidCapture(handlers[0].capture)
      && handlers[0].capture == Capture(options.owner.value, options.repo.value,
           ResolveCommit(options.commit, configTestCommit, env.testCommit).value,
           options.token, GetContext(env.circleNodeIndex, env.circleNodeTotal))
  {
    var testCommit := ResolveCommit(options.commit, configTestCommit, env.testCommit);
    if Truthy(testCommit) && Truthy(options.owner) && Truthy(options.repo) then
      var context := GetContext(env.circleNodeIndex, env.circleNodeTotal);
      var capture := Capture(options.owner.value, options.repo.value, testCommit.value, options.token, context);
      [Handler(BeforeRun, capture), Handler(AfterRun, capture)]
    else
      []
  }

  /** The options object a handler builds when its event fires. */
  function HandlerOptions(h: Handler, results: RunResults, env: ProcessEnv): Options
  {
    var c := h.capture;
    match h.event
    case BeforeRun =>
      Options(Some(c.owner), Some(c.repo), Some(c.commit), Some("pending"), Some("Tests running"),
              Some(c.context), env.circleBuildUrl, None, None)
    case AfterRun =>
      Options(Some(c.owner), Some(c.repo), Some(c.commit),
              Some(if results.totalFailed > 0 then "failure" else "success"),
              Some(NatToString(results.totalTests) + " tests finished"),
              Some(c.context), Or(results.runUrl, env.circleBuildUrl), None, None)
  }

  /** The commit-status POST a handler's `setGitHubCommitStatus` call would send.
      For a registered handler only a missing token can make it throw. */
  function HandlerRequest(h: Handler, results: RunResults, env: ProcessEnv): (r: Result<StatusRequest, Error>)
    ensures ValidCapture(h.capture) ==> (r.Success? <==> Truthy(h.capture.token))
    ensures r.Failure? && ValidCapture(h.capture) ==> r.error == TokenRequired
    ensures r.Success? ==>
      && r.value.url == StatusesUrl(h.capture.owner, h.capture.repo, h.capture.commit)
      && h.capture.token.Some?
      && r.value.authorization == "Bearer " + h.capture.token.value
      && r.value.body.context == Some(h.capture.context)
    ensures r.Success? && h.event == BeforeRun ==>
      && r.value.body.state == Some("pending")
      && r.value.body.description == Some("Tests running")
      && r.value.body.targetUrl == env.circleBuildUrl
    ensures r.Success? && h.event == AfterRun ==>
      && (r.value.body.state == Some("failure") <==> results.totalFailed > 0)
      && (r.value.body.state == Some("success") <==> results.totalFailed == 0)
      && r.value.body.description == Some(NatToString(results.totalTests) + " tests finished")
      && r.value.body.targetUrl == (if Truthy(results.runUrl) then results.runUrl else env.circleBuildUrl)
  {
    StatusRequestFor(HandlerOptions(h, results, env), EnvOptions(h.capture.token))
  }

  /** Both handlers of one registration report under the same context, the
      one computed at registration, whatever the run results. */
  lemma HandlersShareContext(options: PluginOptions, configTestCommit: Option<string>, env: ProcessEnv,
                             before: RunResults, after: RunResults)
    requires RegisterPlugin(options, configTestCommit, env) != []
    requires Truthy(options.token)
    ensures var hs := RegisterPlugin(options, configTestCommit, env);
      && HandlerRequest(hs[0], before, env).Success?
      && HandlerRequest(hs[1], after, env).Success?
      && HandlerRequest(hs[0], before, env).value.body.context
         == HandlerRequest(hs[1], after, env).value.body.context
         == Some(GetContext(env.circleNodeIndex, env.circleNodeTotal))
  {
  }
}
