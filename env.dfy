/** The required-value check run on every configuration variable before any
    network activity (`env_has_key`). */
module Env {
  import opened Common

  /** Why the run stopped: the message `abort` prints before exiting 1. */
  datatype Abort = Missing(message: string)

  datatype Checked = Accepted(value: string) | Aborted(reason: Abort)

  /** A value is accepted exactly when the variable is set and not empty; the
      accepted value is the variable's own value, and a rejection names the
      variable in its message. */
  function EnvHasKey(env: map<string, string>, key: string): (r: Checked)
    ensures r.Accepted? <==> key in env && env[key] != ""
    ensures r.Accepted? ==> r.value == env[key] && |r.value| > 0
    ensures r.Aborted? ==> r.reason.message == "Missing " + key + "."
  {
    var v := Lookup(env, key);
    if v.Some? && v.value != "" then Accepted(v.value) else Aborted(Missing("Missing " + key + "."))
  }

  /** The configuration variables the script reads, in the order it reads them. */
  const RequiredKeys: seq<string> := [
    "AC_APK_PATH", "AC_TEST_APK_PATH", "AC_BROWSERSTACK_USERNAME",
    "AC_BROWSERSTACK_ACCESS_KEY", "AC_BROWSERSTACK_TIMEOUT", "AC_BROWSERSTACK_PAYLOAD"
  ]

  /** Reading the variables one after another: the first one that is missing
      or empty stops the run, and otherwise every value is collected in order. */
  function RequireAll(env: map<string, string>, keys: seq<string>): (r: Result)
    ensures r.Values? ==> |r.values| == |keys|
    ensures r.Values? ==> forall i :: 0 <= i < |keys| ==> keys[i] in env && r.values[i] == env[keys[i]] != ""
    ensures r.Stopped? ==> r.at < |keys| && EnvHasKey(env, keys[r.at]).Aborted?
    ensures r.Stopped? ==> forall i :: 0 <= i < r.at ==> EnvHasKey(env, keys[i]).Accepted?
    ensures r.Values? <==> forall i :: 0 <= i < |keys| ==> EnvHasKey(env, keys[i]).Accepted?
  {
    if keys == [] then Values([])
    else
      match EnvHasKey(env, keys[0])
      case Aborted(_) => Stopped(0)
      case Accepted(v) =>
        match RequireAll(env, keys[1..])
        case Stopped(k) => Stopped(k + 1)
        case Values(vs) => Values([v] + vs)
  }

  /** The outcome of reading a list of variables: all their values, or the
      position of the one that aborted the run. */
  datatype Result = Values(values: seq<string>) | Stopped(at: nat)
}
