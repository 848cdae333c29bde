/** Values shared by the components of the BrowserStack Espresso runner:
    the optional JSON field, Ruby's string interpolation of a possibly-nil
    value, and the provider's fixed endpoints. */
module Common {

  /** A JSON field that may be absent (Ruby `nil` after `response[:key]`). */
  datatype Option<+T> = None | Some(value: T)

  /** `"#{x}"` in Ruby: a nil value interpolates as the empty string. */
  function Interp(x: Option<string>): (r: string)
    ensures x.None? ==> r == ""
    ensures x.Some? ==> r == x.value
  {
    match x
    case None => ""
    case Some(s) => s
  }

  /** Looking a name up in the process environment (`ENV[key]`). */
  function Lookup(env: map<string, string>, key: string): (r: Option<string>)
    ensures r.Some? <==> key in env
    ensures r.Some? ==> r.value == env[key]
  {
    if key in env then Some(env[key]) else None
  }

  const BuildEndpoint: string := "/app-automate/espresso/v2/build"
  const BuildStatusEndpoint: string := "/app-automate/espresso/v2/builds/"
}
