/** The build-status poller (`check_status`). Each cycle first checks the
    timeout budget, then asks the provider for the build's status; a status
    of `running` or the empty string costs one poll interval and starts the
    next cycle, any other status ends the run, after fetching the reports
    when the reply lists devices. */
module Poller {
  import opened Common
  import opened Reports

  /** Seconds slept between polls, and the amount the budget loses per cycle. */
  const PollInterval: int := 10

  /** One reply of the status endpoint: the HTTP status code and reason
      phrase, and the parsed body's `status` and `devices` fields. */
  datatype StatusResponse = StatusResponse(code: int, message: string,
                                           status: Option<string>, devices: Option<seq<Device>>)

  /** `Net::HTTPClientError` (4xx) or `Net::HTTPServerError` (5xx). */
  predicate IsHttpError(code: int)
  {
    400 <= code <= 599
  }

  /** The two statuses that keep the build polling. An absent status is not
      one of them: it ends the run like any other terminal status. */
  predicate StillRunning(status: Option<string>)
  {
    status == Some("running") || status == Some("")
  }

  /** A reply after which the poller sleeps and polls again. */
  predicate Running(resp: StatusResponse)
  {
    !IsHttpError(resp.code) && StillRunning(resp.status)
  }

  /** How the run ends: exit status 0 (`Passed`) or 1 (everything else).
      `Crashed` is the exception raised while fetching reports. */
  datatype Outcome = Passed | BuildFailed | TimedOut | StatusError(code: int, message: string) | Crashed

  function ExitCode(o: Outcome): (code: int)
    ensures code == 0 <==> o.Passed?
    ensures code == 0 || code == 1
  {
    if o.Passed? then 0 else 1
  }

  /** The number of cycles whose budget check passes, starting from `budget`:
      the budgets budget, budget - 10, ... that are still positive. */
  function Cycles(budget: int): (n: nat)
  {
    if budget <= 0 then 0 else (budget + PollInterval - 1) / PollInterval
  }

  /** What a run of the poller amounts to: how it ended, the budget at each
      status request it issued (in order), and the device list it fetched
      reports for, if it did. */
  datatype Trace = Trace(outcome: Outcome, polledAt: seq<int>, fetch: Option<seq<Device>>)

  /** How a reply that is not `Running` ends the run. */
  function Decide(resp: StatusResponse): (o: Outcome)
    requires !Running(resp)
    ensures o.StatusError? <==> IsHttpError(resp.code)
    ensures o.StatusError? ==> o.code == resp.code && o.message == resp.message
    ensures o.BuildFailed? <==> !IsHttpError(resp.code) && resp.status == Some("failed")
    ensures !o.TimedOut? && !o.Crashed?
  {
    if IsHttpError(resp.code) then StatusError(resp.code, resp.message)
    else if resp.status == Some("failed") then BuildFailed
    else Passed
  }

  /** The device list a reply that is not `Running` fetches reports for:
      none after an HTTP error, otherwise the reply's `devices` if present
      (an empty list is present). */
  function FetchOf(resp: StatusResponse): (r: Option<seq<Device>>)
    ensures r.Some? <==> !IsHttpError(resp.code) && resp.devices.Some?
    ensures r.Some? ==> r == resp.devices
  {
    if IsHttpError(resp.code) then None else resp.devices
  }

  /** The path every status request of a build is sent to: the build id
      interpolated after the status endpoint, so a build started without an
      id is polled at the bare endpoint. */
  function StatusPath(buildId: Option<string>): (r: string)
    ensures |r| >= |BuildStatusEndpoint| && r[..|BuildStatusEndpoint|] == BuildStatusEndpoint
    ensures buildId.Some? ==> r[|BuildStatusEndpoint|..] == buildId.value
    ensures buildId.None? ==> r == BuildStatusEndpoint
  {
    BuildStatusEndpoint + Interp(buildId)
  }

  /** Builds with different ids are polled at different paths. */
  lemma StatusPathsDiffer(a: string, b: string)
    requires a != b
    ensures StatusPath(Some(a)) != StatusPath(Some(b))
  {
  }

  /** `check_status` as a function of the budget, the path polled, the
      provider (`provider(path, k)` is the reply to request number `k` sent to
      `path`) and the number `sent` of the next request.
      The budgets polled at count down by exactly the poll interval and are
      all positive, there are at most `Cycles(budget)` of them, a timeout
      comes only after all of them, and reports are fetched only by a run
      that ends with the build's own verdict. */
  function Poll(budget: int, path: string, provider: (string, nat) -> StatusResponse, sent: nat): (t: Trace)
    decreases budget
    ensures |t.polledAt| <= Cycles(budget)
    ensures forall j :: 0 <= j < |t.polledAt| ==> t.polledAt[j] == budget - PollInterval * j > 0
    ensures t.outcome.TimedOut? ==> |t.polledAt| == Cycles(budget) && t.fetch.None?
    ensures t.fetch.Some? ==> t.outcome.Passed? || t.outcome.BuildFailed?
    ensures !t.outcome.Crashed?
  {
    if budget <= 0 then Trace(TimedOut, [], None)
    else
      var resp := provider(path, sent);
      if !Running(resp) then Trace(Decide(resp), [budget], FetchOf(resp))
      else
        var rest := Poll(budget - PollInterval, path, provider, sent + 1);
        Trace(rest.outcome, [budget] + rest.polledAt, rest.fetch)
  }

  /** A budget at or below zero times out without a status request. */
  lemma NoBudgetNoRequest(budget: int, path: string, provider: (string, nat) -> StatusResponse, sent: nat)
    requires budget <= 0
    ensures Poll(budget, path, provider, sent) == Trace(TimedOut, [], None)
  {
  }

  /** A running reply is never terminal and fetches nothing: the next cycle
      runs with the budget reduced by exactly the poll interval. */
  lemma RunningContinues(budget: int, path: string, provider: (string, nat) -> StatusResponse, sent: nat)
    requires budget > 0 && Running(provider(path, sent))
    ensures var t := Poll(budget, path, provider, sent);
            var rest := Poll(budget - PollInterval, path, provider, sent + 1);
            t.outcome == rest.outcome && t.fetch == rest.fetch && t.polledAt == [budget] + rest.polledAt
  {
  }

  /** The first reply that is not `Running`, if it comes within the budget,
      decides the run: one request more than the running replies before it,
      its verdict, and the reports it lists. */
  lemma {:induction false} FirstDecisionDecides(budget: int, path: string, provider: (string, nat) -> StatusResponse, sent: nat, k: nat)
    requires k < Cycles(budget)
    requires forall j :: sent <= j < sent + k ==> Running(provider(path, j))
    requires !Running(provider(path, sent + k))
    ensures var t := Poll(budget, path, provider, sent);
            |t.polledAt| == k + 1 && t.outcome == Decide(provider(path, sent + k))
            && t.fetch == FetchOf(provider(path, sent + k))
  {
    if k > 0 {
      assert Running(provider(path, sent));
      assert Cycles(budget - PollInterval) == Cycles(budget) - 1;
      FirstDecisionDecides(budget - PollInterval, path, provider, sent + 1, k - 1);
    }
  }

  /** When every reply within the budget is `Running`, the run times out
      after exactly `Cycles(budget)` requests and fetches nothing. */
  lemma {:induction false} AllRunningTimesOut(budget: int, path: string, provider: (string, nat) -> StatusResponse, sent: nat)
    requires forall j :: sent <= j < sent + Cycles(budget) ==> Running(provider(path, j))
    ensures var t := Poll(budget, path, provider, sent);
            t.outcome == TimedOut && |t.polledAt| == Cycles(budget) && t.fetch.None?
  {
    if budget > 0 {
      assert Running(provider(path, sent));
      assert Cycles(budget - PollInterval) == Cycles(budget) - 1;
      AllRunningTimesOut(budget - PollInterval, path, provider, sent + 1);
    }
  }

  /** Conversely, a timeout means every reply the run received was `Running`. */
  lemma {:induction false} TimeoutOnlyAfterRunning(budget: int, path: string, provider: (string, nat) -> StatusResponse, sent: nat)
    requires Poll(budget, path, provider, sent).outcome == TimedOut
    ensures forall j :: sent <= j < sent + Cycles(budget) ==> Running(provider(path, j))
  {
    if budget > 0 {
      assert Running(provider(path, sent));
      assert Cycles(budget - PollInterval) == Cycles(budget) - 1;
      TimeoutOnlyAfterRunning(budget - PollInterval, path, provider, sent + 1);
    }
  }

  /** A budget of 25 against a provider that always answers `running`: polls
      at 25, 15 and 5, then a timeout at -5 without a fourth request. */
  lemma TwentyFiveSecondsAlwaysRunning(path: string, provider: (string, nat) -> StatusResponse)
    requires forall j :: provider(path, j).code == 200 && provider(path, j).status == Some("running")
    ensures Poll(25, path, provider, 0) == Trace(TimedOut, [25, 15, 5], None)
  {
  }

  /** Three `running` replies and then `failed` with one device, on a budget
      of 25: the fourth request is never sent, so the run times out and no
      report is fetched. */
  lemma FailedAfterThreeRunningIsTooLate(path: string, provider: (string, nat) -> StatusResponse, d: Device)
    requires forall j :: j < 3 ==> provider(path, j) == StatusResponse(200, "OK", Some("running"), None)
    requires provider(path, 3) == StatusResponse(200, "OK", Some("failed"), Some([d]))
    ensures Poll(25, path, provider, 0) == Trace(TimedOut, [25, 15, 5], None)
  {
  }

  /** `check_status` on a workspace: the loop checks the budget at the top of
      each cycle, sends request number `requests`, and stops at the first
      reply that is not `Running`. Its requests and outcome are those of
      `Poll`; the disk changes only when `Poll` fetches reports, and then as
      `test_results` changes it, a crash there replacing the verdict. Every
      request goes to the build's status path. */
  method CheckStatus(ws: Workspace, buildId: Option<string>, timeout: int,
                     provider: (string, nat) -> StatusResponse, report: string -> string,
                     outputDir: Option<string>, envPath: Option<string>)
    returns (outcome: Outcome, requests: nat)
    modifies ws
    ensures var t := Poll(timeout, StatusPath(buildId), provider, 0);
            && requests == |t.polledAt|
            && (t.fetch.None? ==> outcome == t.outcome && ws.State() == old(ws.State()))
            && (t.fetch.Some? ==>
                  var f := FetchReports(old(ws.State()), buildId, t.fetch.value, outputDir, envPath, report);
                  ws.State() == f.disk && outcome == (if f.outcome.Fetched? then t.outcome else Crashed))
  {
    var budget := timeout;
    requests := 0;
    while budget > 0
      invariant var t := Poll(timeout, StatusPath(buildId), provider, 0);
                var u := Poll(budget, StatusPath(buildId), provider, requests);
                t.outcome == u.outcome && t.fetch == u.fetch && |t.polledAt| == requests + |u.polledAt|
      invariant ws.State() == old(ws.State())
      decreases budget
    {
      var resp := provider(StatusPath(buildId), requests);
      requests := requests + 1;
      if IsHttpError(resp.code) {
        return StatusError(resp.code, resp.message), requests;
      }
      if !StillRunning(resp.status) {
        if resp.devices.Some? {
          var fetched := ws.TestResults(buildId, resp.devices.value, outputDir, envPath, report);
          if !fetched.Fetched? {
            return Crashed, requests;
          }
        }
        outcome := if resp.status == Some("failed") then BuildFailed else Passed;
        return;
      }
      budget := budget - PollInterval;
    }
    outcome := TimedOut;
  }
}
