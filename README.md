# BrowserStack Espresso runner: a Dafny model

The runner is a CI step that uploads an Android app and its Espresso test
package to BrowserStack App Automate and starts a build. It then polls the
build's status until the build finishes or a timeout budget runs out, and
downloads one JUnit XML report per device. This project models the logic of
`main.rb` with the network replaced by oracles and proves properties of it:

- `Env`: the required-value check `env_has_key` and the six checks the script makes in order.
- `Trigger`: `build`. It does two first-occurrence literal substitutions
  (Ruby `String#sub` with a String pattern) of `AC_BROWSERSTACK_APP_URL` and
  `AC_BROWSERSTACK_TEST_URL` into the JSON template. Then it classifies the
  reply: `message == 'Success'` gives the `build_id`, and anything else exits 1.
- `Reports`: `test_results`. The file system is a class `Workspace` that holds
  the report files (a map from path to contents), the existing directories
  and the lines of the append-only environment file. The pure function
  `FetchReports` says what one call does to it.
- `Poller`: `check_status`, the status state machine. `Poll` is the
  recursive definition over the budget, and `CheckStatus` is the loop, proved
  equal to it. The provider is a function from request path and request
  number to reply, so request `k`, sent to `path`, gets reply
  `provider(path, k)`. Every status request of a build goes to the status
  endpoint followed by its `build_id`.
- `Runner`: the top level. Configuration comes first, then the build, and only
  a started build is polled.

Behaviour of `main.rb` worth knowing, all of it modelled as the code has it:

- The report fetcher runs whenever the terminal reply has a `devices` field,
  because the test is Ruby truthiness. An empty `devices` list still creates
  the folder and appends the result line.
- Only the literal statuses `running` and `""` keep polling. A reply without
  a `status` field (nil) is terminal and ends the run as passed.
- Budget 25 with three `running` replies times out before a fourth request,
  so a `failed` fourth reply is never seen and no report is written
  (`Poller.FailedAfterThreeRunningIsTooLate`).
- A device whose `sessions` list is missing or empty makes
  `device[:sessions][0][:id]` raise. The earlier devices' files stay written
  and nothing is appended.

## Model

| member | source | states |
|---|---|---|
| `Env.EnvHasKey` | main.rb:13-15 | a value is accepted iff the variable is set and non-empty; the accepted value is the variable's value; otherwise the run aborts with `Missing <key>.` |
| `Env.RequireAll` | main.rb:118-124 | reading the variables in order, the run stops at the first missing or empty one, every earlier one having been accepted; otherwise all values are collected in order, and this happens iff every variable is accepted |
| `Trigger.FindFrom` | main.rb:49-50 | the position found is an occurrence of the pattern with none before it; no result means the pattern does not occur |
| `Trigger.Sub` | main.rb:49-50 | a text without the pattern comes back unchanged |
| `Trigger.SubFirstOnly` | main.rb:49-50 | with no occurrence before the one at the end of `pre`, `pre + pat + post` becomes `pre + rep + post`: only the first occurrence is replaced and the rest, further occurrences included, is unchanged |
| `Trigger.SubSplits` | main.rb:49-50 | whenever the pattern occurs, the result is the text before its first occurrence, the replacement, and the untouched rest |
| `Trigger.Render` | main.rb:49-50 | a template holding neither placeholder is sent unchanged |
| `Trigger.RenderTemplate` | main.rb:49-50 | a template with each placeholder first at the usual place renders to the template with the app URL and the test-suite URL in place and nothing else changed |
| `Trigger.Classify` | main.rb:52-58 | the build starts iff the reply's message is `Success`, and then hands on exactly the reply's `build_id` (possibly absent); otherwise it is rejected with no id |
| `Trigger.Build` | main.rb:48-59 | one request goes to the build endpoint with the rendered template as body, and the outcome is started iff the reply to that body says `Success`, carrying that reply's build id |
| `Reports.ReportFolder` | main.rb:62 | the report folder's path ends in `/test-results` |
| `Reports.FirstUnreportable` | main.rb:64-65 | the number of devices processed is the position of the first device without sessions, or all of them; every device before it has a session |
| `Reports.WrittenKeys` | main.rb:64-76 | after the loop the files are exactly the earlier ones plus one `<folder>/<device>.xml` per device |
| `Reports.LastWriteWins` | main.rb:64-76 | a device's file holds the report of its first session, fetched from `<status endpoint><build id>/sessions/<id>/report`, unless a later device has the same file name |
| `Reports.WrittenLeavesOthers` | main.rb:73-75 | a file that is no device's report file keeps its contents and existence |
| `Reports.FetchReports` | main.rb:61-80 | the folder exists afterwards; the call completes iff every device has a session and the env-file path is set and not empty (`File.open` raises on nil and on `""`); a device without sessions stops it at that device; exactly one `AC_TEST_RESULT_PATH=<folder>` line is appended iff it completes; the files are those written for the devices processed |
| `Reports.Workspace.TestResults` | main.rb:61-80 | the workspace afterwards and the outcome are those `FetchReports` gives for the workspace before |
| `Reports.Workspace.WriteReports` | main.rb:64-76 | the loop writes the devices' reports in order up to the first device without sessions, and returns how many it wrote |
| `Poller.StatusPath` | main.rb:87 | a build's status requests go to the status endpoint followed by its `build_id`, and to the bare endpoint when the reply had none |
| `Poller.StatusPathsDiffer` | main.rb:87 | builds with different ids are polled at different paths |
| `Poller.ExitCode` | main.rb:83-108 | the process exits 0 iff the run passed, and 1 on every other outcome |
| `Poller.Decide` | main.rb:96-108 | a reply that is not still running ends the run: an HTTP 4xx/5xx reply with a status error carrying the reply's code and reason phrase, `failed` with a build failure, anything else with success; never a timeout |
| `Poller.Poll` | main.rb:82-116 | the budgets polled at are `budget, budget - 10, ...`, all positive, at most ceil(budget/10) of them; a timeout comes only after all of them and fetches nothing; reports are fetched only by a run ending in pass or fail |
| `Poller.NoBudgetNoRequest` | main.rb:83-86 | a budget at or below zero times out without any status request |
| `Poller.RunningContinues` | main.rb:109-113 | a `running` or `""` reply is not terminal, fetches nothing, and the next cycle runs with the budget reduced by exactly 10 |
| `Poller.FirstDecisionDecides` | main.rb:96-108 | the first reply within the budget that is not running decides the run: one request more than the running replies before it, its verdict, and a report fetch iff it has a `devices` field; an HTTP error fetches nothing |
| `Poller.AllRunningTimesOut` | main.rb:83-113 | if every reply within the budget is running, the run times out after exactly ceil(budget/10) requests (none for budget <= 0) and fetches nothing |
| `Poller.TimeoutOnlyAfterRunning` | main.rb:83-113 | a timeout happens only if every one of the ceil(budget/10) replies was running |
| `Poller.TwentyFiveSecondsAlwaysRunning` | main.rb:83-113 | budget 25 against a provider that always answers `running`: polls at 25, 15 and 5, then a timeout without a fourth request |
| `Poller.FailedAfterThreeRunningIsTooLate` | main.rb:83-113 | budget 25, three `running` replies, then `failed` with one device: the run times out after three requests and fetches no report |
| `Poller.CheckStatus` | main.rb:82-116 | every request goes to the started build's status path; the loop sends as many requests and ends with the same outcome as `Poll`; the workspace changes only when `Poll` fetches reports, exactly as `test_results` changes it; an exception there ends the run instead of the verdict |
| `Runner.Run` | main.rb:118-137 | a missing variable stops the run with its message before anything else; a missing upload URL crashes before the build; a rejected build is never polled; in all three cases the workspace is untouched; a started build's `build_id` names both the status path polled and the report paths, and the run's requests, outcome and workspace are those `Poll` at that path and `FetchReports` give, a crash while fetching replacing the verdict |
| `Runner.RunExitCode` | main.rb:118-137 | the process exits 1 when it stops before polling; a polled run exits with the poller's code, so only a polled build that passed exits 0 |

## Left out

- Net::HTTP, TLS and basic authentication: every request is an oracle. `post` maps the request body to the parsed reply, `provider` maps the request path and number to the status reply, and `report` maps the report path to its body. A transport failure, which raises in Ruby, is not modelled.
- JSON parsing: replies are already-parsed records with optional fields. A body that is not JSON, a `devices` value that is neither absent nor a list, and numeric session ids are not modelled.
- `upload` and its multipart encoding: the run takes the URL fields of the two upload replies as inputs. Failing to open the artifact files is not modelled.
- `run_command`: it is never called.
- `sleep(10)`, `STDOUT.flush` and the progress messages: they are timing and output. The budget at each request is recorded instead.
- Trigger.Sub: treats the replacement literally. Ruby gives backslash sequences such as `\0` and `\1` a meaning in a `sub` replacement string, so the model agrees with Ruby only for URLs without backslashes.
- Runner.Run: takes the timeout as an integer. The `String#to_i` conversion of `AC_BROWSERSTACK_TIMEOUT` is not modelled.
- Reports.ReportFile: joins the folder and `<device>.xml` with one `/`. `File.join` also collapses a leading `/` in the device name, and the model does not.
- Reports.FetchReports: models only the nil and empty environment-file paths as failing to open. Other file-system failures raise in Ruby and end the run with exit status 1, and the model does not capture them: `FileUtils.mkdir` failing (for example because `AC_OUTPUT_DIR` does not exist, or is empty and `/test-results` cannot be created), `File.write` failing, and `File.open` failing on a path that cannot be opened for other reasons, such as permissions or a missing directory.
- Poller.Poll: counts down the budget with no limit on the number of cycles. `check_status` recurses once per `running` reply (main.rb:113), and Ruby has no tail-call elimination. A large budget together with that many consecutive `running` replies therefore ends in `SystemStackError` and exit status 1. The model does not capture how deep the recursion can go.
- Poller.CheckStatus: loops for as long as the budget allows, so it never ends in the stack overflow that a large budget with as many consecutive `running` replies causes in the recursive Ruby method.
- Which path the environment file lives at: beyond whether `AC_ENV_FILE_PATH` is set and non-empty, the path does not matter, and the file's lines are a sequence.
