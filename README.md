# Mergeable contribution flow, modelled in Dafny

Mergeable is a mockup of a guided first-contribution flow for open source.
Most of its pages only render literal data. Six pages make decisions, and
this project models them:

- **Issue explorer** (`IssueFilter`): a case-insensitive search over title
  and repository, plus three selectors (type, difficulty, skill), each with
  an "all" wildcard. Also the result count, the empty state and Clear
  Filters.
- **Quality gate** (`QualityGate`): four checks that a runner advances in
  order, each from pending to running to passed. Modelled as a class over
  an array with a loop, together with the derived values `allPassed`,
  `anyFailed`, the progress percentage, the status heading and the Create
  Pull Request gate.
- **Commit preparation** (`CommitHeader`): the `type(scope): description`
  header of the Conventional Commits 1.0.0 specification, built from the
  form fields. A parser serves as its inverse. The model also covers the
  seven type buttons and the preview.
- **Pull-request status** (`PrStatus`): the split of pull requests into an
  Active tab and a Completed tab, the status badge and icon, and the
  per-row links and detail line.
- **Contribution type selection** (`TypeSelection`): a class holding the
  guarded single selection, the Continue gate, the info box and the links.
- **Readiness check** (`Readiness`): a class holding the three
  confirmation checkboxes, the `allChecked` gate, the `type` default and
  the links.

`FlowLinks` holds a reduced router: one-segment path parameters and
`key=value` query pairs. With it the model follows `issueId` and `type`
from the selection, through the readiness check, into the query string of
the Start Contributing link (the workspace page itself reads neither). It
also checks that each pull-request row links to the page of that pull
request.
One consequence is worth noting. If a Continue link is followed with
nothing selected, it carries `type=null`. The readiness check then takes
the text "null" as the type rather than falling back to "code"
(`FlowLinks.UnselectedContinueGivesNull`). Whether a disabled link can be
followed at all depends on the button component, which is not part of
this model.

`Common` holds what the pages share: an `Option` type, the JavaScript
`filter` and `includes`, and the subsequence relation used to state that
filtering preserves order.

The readiness checkboxes call `setChecks({ ...checks, field: checked })`.
Each handler therefore sets its box to the value the checkbox reports
rather than flipping it, and the model has setters, not toggles.

## Model

| member | source | states |
|---|---|---|
| Common.Filter | src/pages/ExploreIssues.tsx:117-124 | `filter` keeps exactly the elements that pass the predicate and never yields more elements than it was given |
| Common.FilterIsSubsequence | src/pages/ExploreIssues.tsx:117 | the filtered list is an order-preserving subsequence of the input: nothing is added or reordered |
| Common.FilterKeepsAll | src/pages/ExploreIssues.tsx:117-124 | filtering returns the whole input exactly when every element passes |
| Common.FilterCongruent | src/pages/ExploreIssues.tsx:117-124 | two predicates that agree on every element give the same filtered list |
| Common.FilterTwice | src/pages/ExploreIssues.tsx:123 | filtering by one test and then by another equals filtering once by their conjunction |
| Common.FilterDisjointLengths | src/pages/PRStatus.tsx:80-81 | two mutually exclusive filters take at most the whole input between them, and exactly all of it iff every element passes one of them |
| Common.Contains | src/pages/ExploreIssues.tsx:118-119 | `includes` is true iff the needle occurs at some position of the string |
| Common.EmptyOccursEverywhere | src/pages/ExploreIssues.tsx:118-119 | the empty query is contained in every string |
| IssueFilter.FilteredIssues | src/pages/ExploreIssues.tsx:117-124 | `filteredIssues` is an order-preserving subsequence of the issues, and an issue is in it iff it passes search, type, difficulty and skill |
| IssueFilter.EmptyQueryMatches | src/pages/ExploreIssues.tsx:118-119 | an empty search matches every issue |
| IssueFilter.ClearedFiltersKeepEverything | src/pages/ExploreIssues.tsx:271-276 | the state Clear Filters sets (and the page starts in) keeps the whole list, so the count equals the number of issues |
| IssueFilter.SingleSelectors | src/pages/ExploreIssues.tsx:120-122 | alone, a selector at "all" accepts every issue; otherwise type and difficulty demand equality and skill demands membership in the issue's skills |
| IssueFilter.FilterIsIntersection | src/pages/ExploreIssues.tsx:123 | an issue passes the combined filter iff it passes each single-dimension filter |
| IssueFilter.FilterIsComposition | src/pages/ExploreIssues.tsx:117-124 | applying the four single-dimension filters in turn yields the combined result, in the same order |
| IssueFilter.SearchIgnoresCase | src/pages/ExploreIssues.tsx:118-119 | two queries with the same ASCII lower-case form select the same issues in the same order |
| IssueFilter.EmptyStateIffNothingMatches | src/pages/ExploreIssues.tsx:264 | the "No issues found" block appears iff no issue passes the filter |
| IssueFilter.TypeSelectorIsExactMatch | src/pages/ExploreIssues.tsx:120 | a type selector other than "all" keeps exactly the issues of that type, in order |
| QualityGate.SuccessMessage | src/pages/QualityGate.tsx:96-108 | a passed check's message is the generic "Check passed" iff its id is not one of the four known ids |
| QualityGate.SuccessMessagesDistinct | src/pages/QualityGate.tsx:96-108 | distinct known ids get distinct messages |
| QualityGate.CountWhere | src/pages/QualityGate.tsx:113 | the count of checks in a status set is at most the list length; it equals the length iff all are in the set, and is 0 iff none is |
| QualityGate.Progress | src/pages/QualityGate.tsx:113 | progress is undefined (NaN) iff there are no checks; otherwise it lies in [0,100], is 100 iff every check is terminal and 0 iff none is |
| QualityGate.Percentage | src/pages/QualityGate.tsx:113 | `c / n * 100` with `c <= n` lies in [0,100], is 100 iff `c == n` and 0 iff `c == 0` |
| QualityGate.PercentageGrows | src/pages/QualityGate.tsx:113 | one more terminal check strictly raises the percentage |
| QualityGate.UpdatesTouchOneCheck | src/pages/QualityGate.tsx:70-88 | each update of iteration i changes only check i; it keeps that check's id, name, description and icon; start sets it running, pass sets it passed with its success message |
| QualityGate.CountInterval | src/pages/QualityGate.tsx:113 | a status set that fills exactly positions lo to hi is counted hi - lo times |
| QualityGate.SequencerCounts | src/pages/QualityGate.tsx:67-89 | in iteration i exactly i checks are terminal, at most one is running and none has failed |
| QualityGate.SequencerProgress | src/pages/QualityGate.tsx:113 | progress in iteration i is i out of the number of checks |
| QualityGate.StartStep | src/pages/QualityGate.tsx:70-74 | starting check i makes it the single running check, regresses no status and keeps the progress |
| QualityGate.PassStep | src/pages/QualityGate.tsx:78-88 | passing check i moves the run to iteration i+1, regresses no status and strictly raises the progress |
| QualityGate.SequencerFinished | src/pages/QualityGate.tsx:111-112 | after the last iteration all checks passed, none failed, Create Pull Request is enabled and progress is 100 |
| QualityGate.InitialChecksArePending | src/pages/QualityGate.tsx:31-60 | the page mounts with every check pending and progress 0 |
| QualityGate.ExtendRun | src/pages/QualityGate.tsx:67-89 | a run extended by its next step in the expected phase is still a run |
| QualityGate.RunProperties | src/pages/QualityGate.tsx:67-89 | along any run at most one check is running, none fails, no status moves backwards and the terminal count never decreases |
| QualityGate.CheckRunner.constructor | src/pages/QualityGate.tsx:31-62 | the page starts with the four initial checks and `isRunning` set |
| QualityGate.CheckRunner.MarkRunning | src/pages/QualityGate.tsx:70-74 | the first `setChecks` of iteration i replaces check i by its running copy and nothing else |
| QualityGate.CheckRunner.MarkPassed | src/pages/QualityGate.tsx:78-88 | the second `setChecks` of iteration i replaces check i by its passed copy with its success message, and nothing else |
| QualityGate.CheckRunner.Advance | src/pages/QualityGate.tsx:67-88 | one iteration starts and then passes check i, moving the run from iteration i to i+1, and extends the run by the two states it shows |
| QualityGate.CheckRunner.RunChecks | src/pages/QualityGate.tsx:66-91 | `runChecks` ends with every check passed with its own message and `isRunning` false, so "All checks passed!" shows and Create Pull Request is enabled; every state it passes through forms a run |
| CommitHeader.Header | src/pages/CommitPreparation.tsx:35 | the header starts with the type and ends with ": " + message; its length is type + message + 2, plus scope + 2 when the scope is non-empty |
| CommitHeader.HeaderRoundTrip | src/pages/CommitPreparation.tsx:35 | parsing a header built from a well-formed type and scope gives back exactly its type, scope and message |
| CommitHeader.UnscopedRoundTrip | src/pages/CommitPreparation.tsx:35 | a header without scope reads back as its type, an empty scope and its message |
| CommitHeader.ScopedRoundTrip | src/pages/CommitPreparation.tsx:35 | a header with a non-empty scope reads back as its type, scope and message |
| CommitHeader.ParsedHeaderRebuilds | src/pages/CommitPreparation.tsx:35 | anything that parses as a header is exactly the header built from its parsed parts, which are well-formed |
| CommitHeader.RebuildUnscoped | src/pages/CommitPreparation.tsx:35 | an unscoped parse rebuilds the same string |
| CommitHeader.RebuildScoped | src/pages/CommitPreparation.tsx:35 | a scoped parse yields a well-formed scope and rebuilds the same string |
| CommitHeader.CommitTypesWellFormed | src/pages/CommitPreparation.tsx:25-33 | each of the seven type ids can head a header unambiguously |
| CommitHeader.NoScopeNoParentheses | src/pages/CommitPreparation.tsx:35 | with an empty scope the header is type + ": " + message and has no parentheses beyond those in type or message |
| CommitHeader.TypeStaysListed | src/pages/CommitPreparation.tsx:104-107 | whatever the user edits or clicks, the commit type stays one of the seven button ids |
| CommitHeader.Preview | src/pages/CommitPreparation.tsx:158-162 | the preview shows the header first, and a second line with the body iff the body is non-empty |
| CommitHeader.InitialHeaderParses | src/pages/CommitPreparation.tsx:20-22 | the initial form gives a header that reads back as docs / readme / its message |
| PrStatus.PendingPrs | src/pages/PRStatus.tsx:80 | the Active tab is an order-preserving subsequence holding exactly the pending and changes-requested pull requests |
| PrStatus.CompletedPrs | src/pages/PRStatus.tsx:81 | the Completed tab is an order-preserving subsequence holding exactly the merged and rejected pull requests |
| PrStatus.TabsAreDisjoint | src/pages/PRStatus.tsx:80-81 | no pull request is on both tabs; one with an unknown status is on neither |
| PrStatus.TabCounts | src/pages/PRStatus.tsx:101-104 | the two tab counts add up to at most the number of pull requests, and to exactly that iff every status is known |
| PrStatus.NoActiveCard | src/pages/PRStatus.tsx:109 | the "No active PRs" card shows iff no pull request is pending or has changes requested |
| PrStatus.StatusLabel | src/pages/PRStatus.tsx:50-62 | the badge reads "Unknown" iff the status is none of the four known ones |
| PrStatus.LabelsDistinct | src/pages/PRStatus.tsx:50-62 | distinct known statuses get distinct badges |
| PrStatus.RowLinksOnTheirTabs | src/pages/PRStatus.tsx:133-140 | the Address Feedback link (offered iff changes are requested) appears only on the Active tab, and the View Summary link (offered iff merged) only on the Completed tab |
| PrStatus.CompletedRowsAgree | src/pages/PRStatus.tsx:184-191 | on the Completed tab, a row links to its summary iff its detail line reads "Merged " + its merge date rather than "Closed", and its badge is Merged or Closed |
| PrStatus.MockFeedbackMatchesLink | src/pages/PRStatus.tsx:126-139 | on the three listed pull requests, an Active row shows the feedback box iff it offers Address Feedback |
| PrStatus.StatusIcon | src/pages/PRStatus.tsx:65-78 | the icon is the generic pull-request icon iff the status is unknown |
| PrStatus.BadgeAndIconAgree | src/pages/PRStatus.tsx:50-78 | two statuses share a badge iff they share an icon |
| PrStatus.MockTabCounts | src/pages/PRStatus.tsx:19-48 | on the three listed pull requests the tabs read Active (2) and Completed (1) |
| TypeSelection.SuitableCards | src/pages/ContributionTypeSelection.tsx:22-63 | among the five cards, exactly those with id code or docs are suitable |
| TypeSelection.SelectAllAppend | src/pages/ContributionTypeSelection.tsx:96 | clicks are handled one after another |
| TypeSelection.UnsuitableClicksIgnored | src/pages/ContributionTypeSelection.tsx:96 | any run of clicks on unsuitable cards leaves the selection as it was |
| TypeSelection.LastSuitableClickWins | src/pages/ContributionTypeSelection.tsx:96 | after any run of clicks, the selection is the last suitable card clicked |
| TypeSelection.ClicksKeepSelectionValid | src/pages/ContributionTypeSelection.tsx:96 | clicking cards of the page keeps the selection none, "code" or "docs" |
| TypeSelection.TypeSelector.constructor | src/pages/ContributionTypeSelection.tsx:20 | the selection starts as none |
| TypeSelection.TypeSelector.Click | src/pages/ContributionTypeSelection.tsx:96 | a click on a suitable card selects its id, a click on any other card changes nothing, and the selection stays valid |
| TypeSelection.ContinueDisabledIffNoSelection | src/pages/ContributionTypeSelection.tsx:149 | for a valid selection, Continue (disabled on a falsy selection) is disabled iff nothing is selected, and the info box shows iff it is enabled |
| TypeSelection.ChoiceHeading | src/pages/ContributionTypeSelection.tsx:126-129 | the info box has a heading iff the selection is code or docs |
| TypeSelection.ShownInfoBoxHasHeading | src/pages/ContributionTypeSelection.tsx:124-129 | whenever the info box shows for a valid selection, it has a heading |
| Readiness.Every | src/pages/ReadinessCheck.tsx:29 | `every(Boolean)` holds iff every value is true |
| Readiness.AllCheckedIffEach | src/pages/ReadinessCheck.tsx:29 | `allChecked` holds iff all three confirmations are true |
| Readiness.InitiallyBlocked | src/pages/ReadinessCheck.tsx:23-27 | the page opens with nothing checked, Start Contributing disabled and the hint shown |
| Readiness.SetBox | src/pages/ReadinessCheck.tsx:113-115 | a checkbox change sets its own box to the reported value and leaves the other two unchanged |
| Readiness.BoxKeepsLastValue | src/pages/ReadinessCheck.tsx:113-181 | after any run of checkbox changes each box holds the value of its last change, or its start value |
| Readiness.EnabledIffEachLastTicked | src/pages/ReadinessCheck.tsx:200 | from the initial state, Start Contributing is enabled iff the last change of every box ticked it |
| Readiness.ReadinessForm.constructor | src/pages/ReadinessCheck.tsx:23-27 | all three confirmations start false |
| Readiness.ReadinessForm.SetUnderstandsTask | src/pages/ReadinessCheck.tsx:113-115 | the first handler sets only `understandsTask` |
| Readiness.ReadinessForm.SetAcceptsScope | src/pages/ReadinessCheck.tsx:147-149 | the second handler sets only `acceptsScope` |
| Readiness.ReadinessForm.SetAcceptsRules | src/pages/ReadinessCheck.tsx:179-181 | the third handler sets only `acceptsRules` |
| Readiness.ContributionTypeParam | src/pages/ReadinessCheck.tsx:21 | the type is the query value when present and non-empty, otherwise "code"; it is never empty |
| FlowLinks.SplitAt | src/App.tsx:71-72 | splitting at the first separator returns the part before it, which lacks the separator, and the rest |
| FlowLinks.SplitAtJoin | src/App.tsx:71-72 | splitting a joined string at a separator the first part lacks gives the two parts back |
| FlowLinks.PathParam | src/App.tsx:71-72 | a matched route parameter is one non-empty segment that completes the path after the prefix |
| FlowLinks.PathParamJoin | src/App.tsx:71-72 | a prefix followed by a segment matches with that segment as its parameter |
| FlowLinks.SplitUrlJoin | src/App.tsx:71-72 | a path and a query joined by `?`, with no `#` in either, split back into the two |
| FlowLinks.ContinueRoundTrip | src/pages/ContributionTypeSelection.tsx:152 | the Continue link reaches the readiness check with the issue id, and with `type` equal to the selected id or, with nothing selected, the text "null" |
| FlowLinks.PairJoin | src/pages/ReadinessCheck.tsx:203 | a `key=value` pair reads back as its key and value |
| FlowLinks.QueryOfOne | src/pages/ContributionTypeSelection.tsx:152 | a query of one pair gives its key its value |
| FlowLinks.QueryOfTwo | src/pages/ReadinessCheck.tsx:203 | a query of two pairs with distinct keys gives each key its value |
| FlowLinks.WorkspaceLinkRoundTrip | src/pages/ReadinessCheck.tsx:203 | the query of the Start Contributing link carries the issue id and the contribution type |
| FlowLinks.SelectionReachesWorkspaceLink | src/pages/ReadinessCheck.tsx:21 | a selected card's id reaches the readiness check and is passed on unchanged, with the issue id, into the query of the Start Contributing link |
| FlowLinks.UnselectedContinueGivesNull | src/pages/ContributionTypeSelection.tsx:152 | a Continue link followed without a selection makes the readiness check use the type "null", not "code" |
| FlowLinks.MissingTypeMeansCode | src/pages/ReadinessCheck.tsx:21 | a readiness-check URL without a `type` pair makes the type "code" |
| FlowLinks.BackLinksKeepIssue | src/pages/ReadinessCheck.tsx:60 | both back links lead to the page of the same issue |
| FlowLinks.NoQuery | src/App.tsx:71-72 | a URL without `?` or `#` is all path, with an empty query string |
| FlowLinks.RowLinksKeepPullRequest | src/App.tsx:82-84 | the Address Feedback link leads to the changes-requested page of the same pull request, and View Summary to its merge summary |

## Left out

- Timers, promises and effects. The two 800 ms and 1000 ms waits in
  `runChecks` are left out, and so is the effect that is never cleaned up.
  Each `setChecks` is one discrete step, and state updates are applied at
  once rather than batched by React.
- `Math.round(progress)` and the display of floating-point numbers. Progress
  is an exact rational, and NaN for an empty list is `None`.
- JSX markup, class names, colours and icons. Icons appear only by
  component name in `QualityGate.QualityCheck.icon` and
  `PrStatus.StatusIcon`.
- IssueFilter.Lower: ASCII lower-casing only; Unicode case mapping is not
  modelled.
- The issue explorer's literal list of six issues. No lemma computes over
  it, because evaluating the filter on those long literals is too costly
  for the solver. The general lemmas cover every list.
- The react-router hooks (`useParams`, `useSearchParams`). Route and query
  parameters are plain inputs. `FlowLinks` has a reduced router: it cuts
  the `#` fragment, splits path from query at the first `?`, and splits
  queries at every `&`. It does no decoding: neither percent escapes nor
  `+` as a space. Its round-trip lemmas therefore hold only for values
  without `%`, `+`, `#` or `&` (and, for a path parameter, without `/` or
  `?`), on which the real decoding changes nothing.
- The workspace page reads neither `issueId` nor `type` from its URL. The
  model follows both values only into the query string of the Start
  Contributing link.
- An `issueId` that the router leaves undefined, which renders as
  "undefined" in the links. Links take the id as a string.
- Whether `disabled` on a button that wraps a link prevents navigation.
  That depends on the button component, which is not part of this model.
- A checkbox's "indeterminate" state, which `checked as boolean` passes
  through. The checkboxes are always given a boolean, so each change is
  modelled as a boolean.
- The other pages: Index, Legal, HelpHub, Dashboard, Profile, IssueDetail,
  MergeSuccess, ChangesRequested, RejectionExplanation, PausedContributions,
  NotFound, AccessError, Login, CreatePR, Settings, Signup, SystemStatus and
  Workspace. They render literal data or hold a single boolean expression.
  AuthCallback is left out because its outcome is random and driven by
  timers. The layout components and the theme toggle are left out as well.
