/** The issue explorer: a list of beginner-friendly issues narrowed by a
    free-text search and three selectors. Everything here is pure; the four
    selector values are plain inputs. */
module IssueFilter {
  import opened Common

  datatype Issue = Issue(
    id: string,
    title: string,
    repo: string,
    repoStars: nat,
    issueType: string,
    difficulty: string,
    skills: seq<string>,
    description: string,
    labels: seq<string>)

  /** The four inputs of the explorer page. */
  datatype Filters = Filters(
    searchQuery: string,
    selectedSkill: string,
    selectedType: string,
    selectedDifficulty: string)

  /** The wildcard value of every selector. */
  const All: string := "all"

  /** The state the page starts in, and the state Clear Filters restores. */
  function ClearedFilters(): Filters
  {
    Filters("", All, All, All)
  }

  /** ASCII `toLowerCase` on one character. */
  function LowerChar(c: char): char
  {
    if 'A' <= c <= 'Z' then (c as int - 'A' as int + 'a' as int) as char else c
  }

  /** ASCII `toLowerCase` on a string. */
  function Lower(s: string): string
  {
    seq(|s|, i requires 0 <= i < |s| => LowerChar(s[i]))
  }

  predicate MatchesSearch(f: Filters, issue: Issue)
  {
    Contains(Lower(issue.title), Lower(f.searchQuery)) ||
    Contains(Lower(issue.repo), Lower(f.searchQuery))
  }

  predicate MatchesType(f: Filters, issue: Issue)
  {
    f.selectedType == All || issue.issueType == f.selectedType
  }

  predicate MatchesDifficulty(f: Filters, issue: Issue)
  {
    f.selectedDifficulty == All || issue.difficulty == f.selectedDifficulty
  }

  predicate MatchesSkill(f: Filters, issue: Issue)
  {
    f.selectedSkill == All || f.selectedSkill in issue.skills
  }

  /** The predicate handed to `filter`. */
  predicate Keep(f: Filters, issue: Issue)
  {
    MatchesSearch(f, issue) && MatchesType(f, issue) &&
    MatchesDifficulty(f, issue) && MatchesSkill(f, issue)
  }

  /** `Keep` with the filter inputs fixed, as the callback value. */
  function KeepBy(f: Filters): Issue -> bool
  {
    x => Keep(f, x)
  }

  /** `filteredIssues`: an order-preserving subsequence of `issues` holding
      exactly the issues that pass all four tests. */
  function FilteredIssues(f: Filters, issues: seq<Issue>): (r: seq<Issue>)
    ensures IsSubsequence(r, issues)
    ensures forall x :: x in r <==> x in issues && Keep(f, x)
  {
    FilterIsSubsequence(KeepBy(f), issues);
    Filter(KeepBy(f), issues)
  }

  /** "Showing N beginner-friendly issues". */
  function ResultsCount(f: Filters, issues: seq<Issue>): nat
  {
    |FilteredIssues(f, issues)|
  }

  /** The "No issues found" block is rendered. */
  predicate ShowsEmptyState(f: Filters, issues: seq<Issue>)
  {
    ResultsCount(f, issues) == 0
  }

  // Filters that constrain a single dimension and leave the others at the wildcard.
  function OnlySearch(q: string): Filters { Filters(q, All, All, All) }
  function OnlyType(t: string): Filters { Filters("", All, t, All) }
  function OnlyDifficulty(d: string): Filters { Filters("", All, All, d) }
  function OnlySkill(k: string): Filters { Filters("", k, All, All) }

  lemma EmptyQueryMatches(issue: Issue)
    ensures MatchesSearch(OnlySearch(""), issue)
  {
    EmptyOccursEverywhere(Lower(issue.title));
  }

  /** An empty query with every selector at "all" keeps the whole list, and
      that is exactly the state Clear Filters sets. */
  lemma ClearedFiltersKeepEverything(issues: seq<Issue>)
    ensures FilteredIssues(ClearedFilters(), issues) == issues
    ensures ResultsCount(ClearedFilters(), issues) == |issues|
  {
    forall x | x in issues
      ensures Keep(ClearedFilters(), x)
    {
      EmptyQueryMatches(x);
    }
    FilterKeepsAll(KeepBy(ClearedFilters()), issues);
  }

  /** Each selector on its own: "all" accepts every issue, any other value
      demands exact equality of type or difficulty, or membership of the
      skill in the issue's skill list. */
  lemma SingleSelectors(issues: seq<Issue>, x: Issue, t: string, d: string, k: string)
    requires x in issues
    ensures x in FilteredIssues(OnlyType(t), issues) <==> t == All || x.issueType == t
    ensures x in FilteredIssues(OnlyDifficulty(d), issues) <==> d == All || x.difficulty == d
    ensures x in FilteredIssues(OnlySkill(k), issues) <==> k == All || k in x.skills
  {
    EmptyQueryMatches(x);
  }

  /** Filtering on all dimensions at once keeps exactly the issues that every
      single-dimension filter keeps. */
  lemma FilterIsIntersection(f: Filters, issues: seq<Issue>, x: Issue)
    ensures x in FilteredIssues(f, issues) <==>
      && x in FilteredIssues(OnlySearch(f.searchQuery), issues)
      && x in FilteredIssues(OnlyType(f.selectedType), issues)
      && x in FilteredIssues(OnlyDifficulty(f.selectedDifficulty), issues)
      && x in FilteredIssues(OnlySkill(f.selectedSkill), issues)
  {
    EmptyQueryMatches(x);
  }

  /** The same, as sequences: applying the single-dimension filters one after
      another yields the combined result, in the same order. */
  lemma FilterIsComposition(f: Filters, issues: seq<Issue>)
    ensures FilteredIssues(f, issues) ==
      FilteredIssues(OnlySearch(f.searchQuery),
        FilteredIssues(OnlyType(f.selectedType),
          FilteredIssues(OnlyDifficulty(f.selectedDifficulty),
            FilteredIssues(OnlySkill(f.selectedSkill), issues))))
  {
    var pS := KeepBy(OnlySearch(f.searchQuery));
    var pT := KeepBy(OnlyType(f.selectedType));
    var pD := KeepBy(OnlyDifficulty(f.selectedDifficulty));
    var pK := KeepBy(OnlySkill(f.selectedSkill));
    forall x: Issue
      ensures Keep(f, x) == (pS(x) && pT(x) && pD(x) && pK(x))
    {
      EmptyQueryMatches(x);
    }
    var dk := x => pD(x) && pK(x);
    var tdk := x => pT(x) && dk(x);
    FilterTwice(pD, pK, dk, issues);
    FilterTwice(pT, dk, tdk, issues);
    FilterTwice(pS, tdk, KeepBy(f), issues);
  }

  /** Search is case-insensitive: two queries with the same ASCII lower-case
      form select the same issues. */
  lemma SearchIgnoresCase(f: Filters, q: string, issues: seq<Issue>)
    requires Lower(q) == Lower(f.searchQuery)
    ensures FilteredIssues(f.(searchQuery := q), issues) == FilteredIssues(f, issues)
  {
    FilterCongruent(KeepBy(f.(searchQuery := q)), KeepBy(f), issues);
  }

  /** The empty-state block appears exactly when no issue passes. */
  lemma EmptyStateIffNothingMatches(f: Filters, issues: seq<Issue>)
    ensures ShowsEmptyState(f, issues) <==> forall x :: x in issues ==> !Keep(f, x)
  {
    var r := FilteredIssues(f, issues);
    if r != [] {
      assert r[0] in r;
    }
  }

  /** Issues of exactly type `t`, as a callback value. */
  function HasType(t: string): Issue -> bool
  {
    (x: Issue) => x.issueType == t
  }

  /** A type selector other than "all" keeps exactly the issues of that
      type, in their original order. */
  lemma TypeSelectorIsExactMatch(t: string, issues: seq<Issue>)
    requires t != All
    ensures FilteredIssues(OnlyType(t), issues) == Filter(HasType(t), issues)
  {
    forall x | x in issues
      ensures KeepBy(OnlyType(t))(x) == HasType(t)(x)
    {
      EmptyQueryMatches(x);
    }
    FilterCongruent(KeepBy(OnlyType(t)), HasType(t), issues);
  }
}
