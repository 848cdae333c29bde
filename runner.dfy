/** The script's top level: every required variable is checked before any
    request, the build request is sent with the uploaded artifacts' URLs,
    and only a started build is polled. */
module Runner {
  import opened Common
  import opened Env
  import opened Trigger
  import opened Reports
  import opened Poller

  /** How a whole run ends. A missing upload URL makes `String#sub` raise on
      its nil replacement, before the build request is sent. */
  datatype RunOutcome =
    | ConfigMissing(reason: Abort)
    | UploadCrashed
    | BuildRejected
    | Polled(outcome: Outcome, requests: nat)

  /** The run, given the environment, the already-converted timeout, the
      upload replies' URL fields, and the provider's build and status
      endpoints as functions. */
  method Run(ws: Workspace, env: map<string, string>, timeout: int,
             appUrl: Option<string>, testSuiteUrl: Option<string>,
             post: string -> BuildResponse, provider: (string, nat) -> StatusResponse,
             report: string -> string) returns (r: RunOutcome)
    modifies ws
    ensures var config := RequireAll(env, RequiredKeys);
            && (r.ConfigMissing? <==> config.Stopped?)
            && (r.ConfigMissing? ==> r.reason == EnvHasKey(env, RequiredKeys[config.at]).reason)
            && (r.UploadCrashed? <==> config.Values? && (appUrl.None? || testSuiteUrl.None?))
    ensures r.BuildRejected? <==>
              && RequireAll(env, RequiredKeys).Values? && appUrl.Some? && testSuiteUrl.Some?
              && Build(RequireAll(env, RequiredKeys).values[5], appUrl.value, testSuiteUrl.value, post).outcome.Rejected?
    ensures r.Polled? ==>
              var config := RequireAll(env, RequiredKeys);
              && config.Values? && appUrl.Some? && testSuiteUrl.Some?
              && var call := Build(config.values[5], appUrl.value, testSuiteUrl.value, post);
                 var t := Poll(timeout, StatusPath(call.outcome.buildId), provider, 0);
                 && call.outcome.Started?
                 && r.requests == |t.polledAt|
                 && (t.fetch.None? ==> r.outcome == t.outcome && ws.State() == old(ws.State()))
                 && (t.fetch.Some? ==>
                       var f := FetchReports(old(ws.State()), call.outcome.buildId, t.fetch.value,
                                             Lookup(env, "AC_OUTPUT_DIR"), Lookup(env, "AC_ENV_FILE_PATH"), report);
                       ws.State() == f.disk && r.outcome == (if f.outcome.Fetched? then t.outcome else Crashed))
    ensures !r.Polled? ==> ws.State() == old(ws.State())
  {
    var config := RequireAll(env, RequiredKeys);
    if config.Stopped? {
      return ConfigMissing(EnvHasKey(env, RequiredKeys[config.at]).reason);
    }
    if appUrl.None? || testSuiteUrl.None? {
      return UploadCrashed;
    }
    assert RequiredKeys[5] == "AC_BROWSERSTACK_PAYLOAD";
    var call := Build(config.values[5], appUrl.value, testSuiteUrl.value, post);
    if call.outcome.Rejected? {
      return BuildRejected;
    }
    var outcome, requests := CheckStatus(ws, call.outcome.buildId, timeout, provider, report,
                                         Lookup(env, "AC_OUTPUT_DIR"), Lookup(env, "AC_ENV_FILE_PATH"));
    r := Polled(outcome, requests);
  }

  /** The exit status of the whole process: 1 when it stops before polling,
      otherwise the poller's. Only a polled build that passed exits 0. */
  function RunExitCode(r: RunOutcome): (code: int)
    ensures code == 0 <==> r.Polled? && r.outcome.Passed?
    ensures code == 0 || code == 1
    ensures r.Polled? ==> code == ExitCode(r.outcome)
  {
    match r
    case Polled(outcome, _) => ExitCode(outcome)
    case _ => 1
  }
}
