/** The build trigger (`build`): the two artifact URLs are substituted into
    the user's JSON template, the result is posted to the build endpoint, and
    the reply decides whether a build id is produced or the run stops. */
module Trigger {
  import opened Common

  const AppPlaceholder: string := "AC_BROWSERSTACK_APP_URL"
  const TestPlaceholder: string := "AC_BROWSERSTACK_TEST_URL"

  /** `pat` appears in `s` starting at position `i`. */
  predicate OccursAt(s: string, pat: string, i: nat)
  {
    i + |pat| <= |s| && s[i..i + |pat|] == pat
  }

  /** No occurrence of `pat` in `s` starts before position `k`. */
  predicate NoMatchBefore(s: string, pat: string, k: nat)
  {
    forall j: nat :: j < k ==> !OccursAt(s, pat, j)
  }

  /** The first position at or after `from` where `pat` occurs, if any. */
  function FindFrom(s: string, pat: string, from: nat): (r: Option<nat>)
    decreases |s| - from
    ensures r.Some? ==> from <= r.value && OccursAt(s, pat, r.value)
    ensures r.Some? ==> forall j: nat :: from <= j < r.value ==> !OccursAt(s, pat, j)
    ensures r.None? ==> forall j: nat :: from <= j ==> !OccursAt(s, pat, j)
  {
    if from + |pat| > |s| then None
    else if s[from..from + |pat|] == pat then Some(from)
    else FindFrom(s, pat, from + 1)
  }

  /** Ruby's `String#sub` with a String pattern and a literal replacement:
      only the first occurrence of `pat` is replaced. */
  function Sub(s: string, pat: string, rep: string): (r: string)
    ensures NoMatchBefore(s, pat, |s| + 1) ==> r == s
  {
    match FindFrom(s, pat, 0)
    case None => s
    case Some(i) => s[..i] + rep + s[i + |pat|..]
  }

  /** Substitution replaces the first occurrence and leaves everything after
      it as it was, further occurrences included. */
  lemma SubFirstOnly(pre: string, pat: string, post: string, rep: string)
    requires NoMatchBefore(pre + pat + post, pat, |pre|)
    ensures Sub(pre + pat + post, pat, rep) == pre + rep + post
  {
    var s := pre + pat + post;
    assert s[|pre|..|pre| + |pat|] == pat;
    assert OccursAt(s, pat, |pre|);
    var f := FindFrom(s, pat, 0);
    assert f.Some?;
    assert f.value == |pre|;
    assert s[..|pre|] == pre;
    assert s[|pre| + |pat|..] == post;
  }

  /** Conversely, whenever the pattern occurs, the result is the text before
      its first occurrence, the replacement, and the untouched rest. */
  lemma SubSplits(s: string, pat: string, rep: string, k: nat)
    requires OccursAt(s, pat, k)
    ensures exists i: nat :: i <= k && OccursAt(s, pat, i) && NoMatchBefore(s, pat, i)
              && Sub(s, pat, rep) == s[..i] + rep + s[i + |pat|..]
  {
    var f := FindFrom(s, pat, 0);
    assert f.Some?;
    var i := f.value;
    assert NoMatchBefore(s, pat, i);
  }

  /** The request body: the application URL replaces the first application
      placeholder, then the test-suite URL replaces the first test placeholder
      of that intermediate text. */
  function Render(template: string, appUrl: string, testUrl: string): (r: string)
    ensures (NoMatchBefore(template, AppPlaceholder, |template| + 1)
             && NoMatchBefore(template, TestPlaceholder, |template| + 1)) ==> r == template
  {
    Sub(Sub(template, AppPlaceholder, appUrl), TestPlaceholder, testUrl)
  }

  /** A template holding each placeholder once in the usual order renders to
      the template with both URLs in place and nothing else changed. */
  lemma RenderTemplate(a: string, b: string, c: string, appUrl: string, testUrl: string)
    requires NoMatchBefore(a + AppPlaceholder + b + TestPlaceholder + c, AppPlaceholder, |a|)
    requires NoMatchBefore(a + appUrl + b + TestPlaceholder + c, TestPlaceholder, |a + appUrl + b|)
    ensures Render(a + AppPlaceholder + b + TestPlaceholder + c, appUrl, testUrl)
              == a + appUrl + b + testUrl + c
  {
    var t := a + AppPlaceholder + b + TestPlaceholder + c;
    assert t == a + AppPlaceholder + (b + TestPlaceholder + c);
    SubFirstOnly(a, AppPlaceholder, b + TestPlaceholder + c, appUrl);
    var m := a + appUrl + b + TestPlaceholder + c;
    assert a + appUrl + (b + TestPlaceholder + c) == m;
    assert m == (a + appUrl + b) + TestPlaceholder + c;
    SubFirstOnly(a + appUrl + b, TestPlaceholder, c, testUrl);
  }

  /** The parsed reply of the build endpoint; either field may be absent. */
  datatype BuildResponse = BuildResponse(message: Option<string>, buildId: Option<string>)

  /** A started build hands on the reply's `build_id` (absent if the reply
      had none); a rejected one ends the run with exit status 1. */
  datatype Triggered = Started(buildId: Option<string>) | Rejected

  /** The build starts exactly when the reply's message is `Success`. */
  function Classify(resp: BuildResponse): (r: Triggered)
    ensures r.Started? <==> resp.message == Some("Success")
    ensures r.Started? ==> r.buildId == resp.buildId
  {
    if resp.message == Some("Success") then Started(resp.buildId) else Rejected
  }

  /** The one request the trigger sends and what became of it. */
  datatype BuildCall = BuildCall(endpoint: string, body: string, outcome: Triggered)

  /** `build`: render the template, post it (the provider is the function
      `post` from request body to parsed reply), and classify the reply. */
  function Build(template: string, appUrl: string, testUrl: string,
                 post: string -> BuildResponse): (r: BuildCall)
    ensures r.endpoint == BuildEndpoint
    ensures r.body == Render(template, appUrl, testUrl)
    ensures r.outcome.Started? <==> post(r.body).message == Some("Success")
    ensures r.outcome.Started? ==> r.outcome.buildId == post(r.body).buildId
  {
    var body := Render(template, appUrl, testUrl);
    BuildCall(BuildEndpoint, body, Classify(post(body)))
  }
}
