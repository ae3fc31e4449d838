/** How `issueId` and `type` travel from the type selection to the
    readiness check and into the Start Contributing link, and where the
    links of the pull-request rows lead. The router is reduced to what
    these links need: a `#` fragment is cut off, the path has the form
    `<prefix><param>` with a one-segment parameter, and the query string is
    a list of `&`-separated `key=value` pairs in which the first pair with a
    given key wins. No decoding is done, so every statement about a round
    trip requires values that the browser would not decode. */
module FlowLinks {
  import opened Common
  import TypeSelection
  import Readiness
  import PrStatus

  function IsChar(c: char): char -> bool
  {
    x => x == c
  }

  /** Splits `s` at the first `c`, if there is one. */
  function SplitAt(s: string, c: char): (r: Option<(string, string)>)
    ensures r.Some? ==> s == r.value.0 + [c] + r.value.1 && c !in r.value.0
    ensures r.None? ==> c !in s
  {
    match FirstIndex(s, IsChar(c))
    case None => None
    case Some(i) =>
      assert s == s[..i] + [c] + s[i + 1..];
      Some((s[..i], s[i + 1..]))
  }

  /** Splitting a joined string at a separator the first part lacks gives
      the two parts back. */
  lemma SplitAtJoin(a: string, c: char, b: string)
    requires c !in a
    ensures SplitAt(a + [c] + b, c) == Some((a, b))
  {
    var s := a + [c] + b;
    assert s[|a|] == c;
    assert forall j :: 0 <= j < |a| ==> s[j] == a[j];
    assert FirstIndex(s, IsChar(c)) == Some(|a|);
    assert s[..|a|] == a;
    assert s[|a| + 1..] == b;
  }

  /** Splits `s` at every `c`. */
  function SplitAll(s: string, c: char): (parts: seq<string>)
    ensures |parts| >= 1
    decreases |s|
  {
    match SplitAt(s, c)
    case None => [s]
    case Some((a, b)) => [a] + SplitAll(b, c)
  }

  /** One query pair: the key before the first `=`, the value after it. */
  function Pair(part: string): (string, string)
  {
    match SplitAt(part, '=')
    case None => (part, "")
    case Some((k, v)) => (k, v)
  }

  /** The value of the first pair whose key is `name`. */
  function Lookup(parts: seq<string>, name: string): Option<string>
    decreases |parts|
  {
    if parts == [] then None
    else if Pair(parts[0]).0 == name then Some(Pair(parts[0]).1)
    else Lookup(parts[1..], name)
  }

  /** `searchParams.get(name)`. */
  function QueryGet(query: string, name: string): Option<string>
  {
    Lookup(SplitAll(query, '&'), name)
  }

  /** The URL without its `#` fragment. */
  function CutFragment(url: string): string
  {
    match SplitAt(url, '#')
    case None => url
    case Some((before, _)) => before
  }

  /** A URL as path and query string, once the fragment is cut off. */
  function SplitUrl(url: string): (string, string)
  {
    match SplitAt(CutFragment(url), '?')
    case None => (CutFragment(url), "")
    case Some((path, query)) => (path, query)
  }

  /** A path and a query joined by `?` split back into the two. */
  lemma SplitUrlJoin(path: string, query: string)
    requires '?' !in path && '#' !in path && '#' !in query
    ensures SplitUrl(path + ['?'] + query) == (path, query)
  {
    var url := path + ['?'] + query;
    assert '#' !in url;
    assert CutFragment(url) == url;
    SplitAtJoin(path, '?', query);
  }

  /** A route parameter: one non-empty path segment, with neither a query
      or fragment mark nor a percent escape that `useParams` would decode. */
  predicate IsSegment(s: string)
  {
    s != "" && '/' !in s && '?' !in s && '#' !in s && '%' !in s
  }

  /** A query key or value that `URLSearchParams` reads back unchanged: no
      pair separator, no fragment mark, no `+` (read as a space) and no
      percent escape. */
  predicate IsPlain(s: string)
  {
    '&' !in s && '#' !in s && '+' !in s && '%' !in s
  }

  /** The parameter of a path matched against `<prefix>:param`. */
  function PathParam(prefix: string, path: string): (r: Option<string>)
    ensures r.Some? ==> IsSegment(r.value) && path == prefix + r.value
  {
    if prefix <= path && IsSegment(path[|prefix|..]) then
      assert path == prefix + path[|prefix|..];
      Some(path[|prefix|..])
    else None
  }

  lemma PathParamJoin(prefix: string, param: string)
    requires IsSegment(param)
    ensures PathParam(prefix, prefix + param) == Some(param)
  {
    assert (prefix + param)[|prefix|..] == param;
  }

  /** What the readiness check reads from its URL. */
  datatype ReadinessRoute = ReadinessRoute(issueId: string, typeParam: Option<string>)

  /** `/readiness-check/:issueId`, with its query string. */
  function ParseReadinessRoute(url: string): Option<ReadinessRoute>
  {
    var (path, query) := SplitUrl(url);
    match PathParam("/readiness-check/", path)
    case None => None
    case Some(id) => Some(ReadinessRoute(id, QueryGet(query, "type")))
  }

  /** The Continue link of the type selection reaches the readiness check
      with the issue id and the rendered selection as its `type`. */
  lemma ContinueRoundTrip(issueId: string, sel: Option<string>)
    requires IsSegment(issueId)
    requires IsPlain(TypeSelection.RenderNullable(sel))
    ensures ParseReadinessRoute(TypeSelection.ContinueTarget(issueId, sel)) ==
      Some(ReadinessRoute(issueId, Some(TypeSelection.RenderNullable(sel))))
  {
    var v := TypeSelection.RenderNullable(sel);
    var path := "/readiness-check/" + issueId;
    var query := "type" + "=" + v;
    assert TypeSelection.ContinueTarget(issueId, sel) == path + ['?'] + query;
    LiteralsPlain();
    QueryOfOne("type", v);
    SplitUrlJoin(path, query);
    PathParamJoin("/readiness-check/", issueId);
  }

  /** A query of one pair gives its key its value. */
  lemma QueryOfOne(key: string, value: string)
    requires '=' !in key && IsPlain(key) && IsPlain(value)
    ensures QueryGet(key + "=" + value, key) == Some(value)
    ensures '#' !in key + "=" + value
  {
    var part := key + "=" + value;
    assert '&' !in part;
    assert SplitAt(part, '&').None?;
    assert SplitAll(part, '&') == [part];
    PairJoin(key, value);
  }

  /** The two values the query string of a `/workspace` link carries. The
      workspace page itself reads neither of them. */
  datatype WorkspaceQuery = WorkspaceQuery(issueId: Option<string>, contributionType: Option<string>)

  /** A `/workspace` link, read as `searchParams.get` would read its query. */
  function ParseWorkspaceLink(url: string): Option<WorkspaceQuery>
  {
    var (path, query) := SplitUrl(url);
    if path == "/workspace" then
      Some(WorkspaceQuery(QueryGet(query, "issueId"), QueryGet(query, "type")))
    else None
  }

  lemma PairJoin(key: string, value: string)
    requires '=' !in key
    ensures Pair(key + "=" + value) == (key, value)
  {
    assert key + "=" + value == key + ['='] + value;
    SplitAtJoin(key, '=', value);
  }

  /** A query of two pairs with distinct keys gives each key its value. */
  lemma QueryOfTwo(k1: string, v1: string, k2: string, v2: string)
    requires '=' !in k1 && '=' !in k2 && k1 != k2
    requires IsPlain(k1) && IsPlain(v1) && IsPlain(k2) && IsPlain(v2)
    ensures QueryGet(k1 + "=" + v1 + "&" + k2 + "=" + v2, k1) == Some(v1)
    ensures QueryGet(k1 + "=" + v1 + "&" + k2 + "=" + v2, k2) == Some(v2)
    ensures '#' !in k1 + "=" + v1 + "&" + k2 + "=" + v2
  {
    var first, second := k1 + "=" + v1, k2 + "=" + v2;
    assert '&' !in first && '&' !in second;
    assert k1 + "=" + v1 + "&" + k2 + "=" + v2 == first + ['&'] + second;
    SplitAtJoin(first, '&', second);
    assert SplitAt(second, '&').None?;
    assert SplitAll(first + ['&'] + second, '&') == [first, second];
    PairJoin(k1, v1);
    PairJoin(k2, v2);
    assert [first, second][1..] == [second];
    assert Lookup([second], k2) == Some(v2);
  }

  /** The query of the Start Contributing link carries both values. */
  lemma WorkspaceLinkRoundTrip(issueId: string, contributionType: string)
    requires IsPlain(issueId) && IsPlain(contributionType)
    ensures ParseWorkspaceLink(Readiness.WorkspaceLink(issueId, contributionType)) ==
      Some(WorkspaceQuery(Some(issueId), Some(contributionType)))
  {
    var query := "issueId" + "=" + issueId + "&" + "type" + "=" + contributionType;
    WorkspaceLinkShape(issueId, contributionType);
    LiteralsPlain();
    QueryOfTwo("issueId", issueId, "type", contributionType);
    SplitUrlJoin("/workspace", query);
  }

  /** The fixed parts of the two links contain no separator or mark. */
  lemma LiteralsPlain()
    ensures IsPlain("type") && '=' !in "type"
    ensures IsPlain("issueId") && '=' !in "issueId"
    ensures '?' !in "/workspace" && '#' !in "/workspace"
    ensures '?' !in "/readiness-check/" && '#' !in "/readiness-check/"
  {
  }

  lemma WorkspaceLinkShape(issueId: string, contributionType: string)
    ensures Readiness.WorkspaceLink(issueId, contributionType) ==
      "/workspace" + ['?'] + ("issueId" + "=" + issueId + "&" + "type" + "=" + contributionType)
  {
    assert "/workspace?issueId=" == "/workspace" + ['?'] + "issueId" + "=";
    assert "&type=" == "&" + "type" + "=";
  }

  /** A selected card's id is the type the Start Contributing link's query
      carries: the selection reaches the readiness check, which passes it on
      unchanged because it is non-empty. */
  lemma SelectionReachesWorkspaceLink(issueId: string, sel: Option<string>)
    requires IsSegment(issueId) && IsPlain(issueId)
    requires TypeSelection.ValidSelection(sel) && sel.Some?
    ensures var route := ParseReadinessRoute(TypeSelection.ContinueTarget(issueId, sel));
      && route == Some(ReadinessRoute(issueId, sel))
      && Readiness.ContributionTypeParam(route.value.typeParam) == sel.value
      && ParseWorkspaceLink(Readiness.WorkspaceLink(route.value.issueId, sel.value)) ==
        Some(WorkspaceQuery(Some(issueId), sel))
  {
    ContinueRoundTrip(issueId, sel);
    WorkspaceLinkRoundTrip(issueId, sel.value);
  }

  /** A Continue link followed without a selection carries the text "null",
      which is non-empty, so the readiness check takes "null" as the type
      instead of falling back to code. */
  lemma UnselectedContinueGivesNull(issueId: string)
    requires IsSegment(issueId)
    ensures var route := ParseReadinessRoute(TypeSelection.ContinueTarget(issueId, None));
      && route.Some?
      && Readiness.ContributionTypeParam(route.value.typeParam) == "null"
  {
    ContinueRoundTrip(issueId, None);
  }

  /** A readiness-check URL without a `type` pair falls back to code. */
  lemma MissingTypeMeansCode(issueId: string)
    requires IsSegment(issueId)
    ensures var route := ParseReadinessRoute("/readiness-check/" + issueId);
      && route == Some(ReadinessRoute(issueId, None))
      && Readiness.ContributionTypeParam(route.value.typeParam) == "code"
  {
    var url := "/readiness-check/" + issueId;
    NoQuery("/readiness-check/", issueId);
    PathParamJoin("/readiness-check/", issueId);
    assert SplitAt("", '&').None?;
    assert Pair("") == ("", "");
  }

  /** `/contribution-type/:issueId` and `/issue/:id`. */
  function ParseTypeSelectionRoute(url: string): Option<string>
  {
    PathParam("/contribution-type/", SplitUrl(url).0)
  }

  function ParseIssueRoute(url: string): Option<string>
  {
    PathParam("/issue/", SplitUrl(url).0)
  }

  /** Both back links lead to the page of the same issue: the readiness
      check back to the type selection, the type selection back to the
      issue. */
  lemma BackLinksKeepIssue(issueId: string)
    requires IsSegment(issueId)
    ensures ParseTypeSelectionRoute(Readiness.BackLink(issueId)) == Some(issueId)
    ensures ParseIssueRoute(TypeSelection.BackTarget(issueId)) == Some(issueId)
  {
    NoQuery("/contribution-type/", issueId);
    NoQuery("/issue/", issueId);
    PathParamJoin("/contribution-type/", issueId);
    PathParamJoin("/issue/", issueId);
  }

  /** A URL with neither `?` nor `#` is all path. */
  lemma NoQuery(prefix: string, param: string)
    requires '?' !in prefix && '?' !in param && '#' !in prefix && '#' !in param
    ensures SplitUrl(prefix + param) == (prefix + param, "")
  {
    var s := prefix + param;
    assert forall k :: 0 <= k < |s| ==> s[k] == if k < |prefix| then prefix[k] else param[k - |prefix|];
    assert '?' !in s && '#' !in s;
  }

  /** `/changes-requested/:prId` and `/success/:prId`. */
  function ParseChangesRequestedRoute(url: string): Option<string>
  {
    PathParam("/changes-requested/", SplitUrl(url).0)
  }

  function ParseSuccessRoute(url: string): Option<string>
  {
    PathParam("/success/", SplitUrl(url).0)
  }

  /** The links of a pull-request row lead to the page of that pull request:
      Address Feedback to its changes-requested page, View Summary to its
      merge summary. */
  lemma RowLinksKeepPullRequest(pr: PrStatus.PullRequest)
    requires IsSegment(pr.id)
    ensures PrStatus.AddressFeedbackLink(pr).Some? ==>
      ParseChangesRequestedRoute(PrStatus.AddressFeedbackLink(pr).value) == Some(pr.id)
    ensures PrStatus.ViewSummaryLink(pr).Some? ==>
      ParseSuccessRoute(PrStatus.ViewSummaryLink(pr).value) == Some(pr.id)
  {
    NoQuery("/changes-requested/", pr.id);
    NoQuery("/success/", pr.id);
    PathParamJoin("/changes-requested/", pr.id);
    PathParamJoin("/success/", pr.id);
  }
}
