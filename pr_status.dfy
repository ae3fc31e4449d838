/** The pull-request status page: the user's pull requests split into an
    Active tab and a Completed tab by their status string, a label for each
    status, and the links each row offers. */
module PrStatus {
  import opened Common

  const StatusPending: string := "pending"
  const StatusMerged: string := "merged"
  const StatusChangesRequested: string := "changes_requested"
  const StatusRejected: string := "rejected"

  /** One pull request. Fields that only some entries carry are optional;
      the status is a free string, so unknown statuses can occur. */
  datatype PullRequest = PullRequest(
    id: string,
    title: string,
    repo: string,
    status: string,
    createdAt: string,
    lastUpdate: Option<string>,
    mergedAt: Option<string>,
    checksPassed: nat,
    checksTotal: nat,
    feedback: Option<string>)

  predicate IsActive(pr: PullRequest)
  {
    pr.status == StatusPending || pr.status == StatusChangesRequested
  }

  predicate IsCompleted(pr: PullRequest)
  {
    pr.status == StatusMerged || pr.status == StatusRejected
  }

  predicate IsKnownStatus(status: string)
  {
    status in {StatusPending, StatusMerged, StatusChangesRequested, StatusRejected}
  }

  function ActiveFilter(): PullRequest -> bool { pr => IsActive(pr) }
  function CompletedFilter(): PullRequest -> bool { pr => IsCompleted(pr) }

  /** `pendingPRs`: the Active tab, in the original order. */
  function PendingPrs(prs: seq<PullRequest>): (r: seq<PullRequest>)
    ensures IsSubsequence(r, prs)
    ensures forall pr :: pr in r <==> pr in prs && (pr.status == StatusPending || pr.status == StatusChangesRequested)
  {
    FilterIsSubsequence(ActiveFilter(), prs);
    Filter(ActiveFilter(), prs)
  }

  /** `completedPRs`: the Completed tab, in the original order. */
  function CompletedPrs(prs: seq<PullRequest>): (r: seq<PullRequest>)
    ensures IsSubsequence(r, prs)
    ensures forall pr :: pr in r <==> pr in prs && (pr.status == StatusMerged || pr.status == StatusRejected)
  {
    FilterIsSubsequence(CompletedFilter(), prs);
    Filter(CompletedFilter(), prs)
  }

  /** No pull request is on both tabs, and one whose status is none of the
      four known values is on neither. */
  lemma TabsAreDisjoint(prs: seq<PullRequest>, pr: PullRequest)
    ensures !(pr in PendingPrs(prs) && pr in CompletedPrs(prs))
    ensures !IsKnownStatus(pr.status) ==> pr !in PendingPrs(prs) && pr !in CompletedPrs(prs)
  {
  }

  /** The two tab counts add up to at most the number of pull requests, and
      to exactly that number iff every status is a known one. */
  lemma TabCounts(prs: seq<PullRequest>)
    ensures |PendingPrs(prs)| + |CompletedPrs(prs)| <= |prs|
    ensures |PendingPrs(prs)| + |CompletedPrs(prs)| == |prs| <==>
      forall pr :: pr in prs ==> IsKnownStatus(pr.status)
  {
    FilterDisjointLengths(ActiveFilter(), CompletedFilter(), prs);
  }

  /** The Active tab shows its "No active PRs" card exactly when no pull
      request is pending or has changes requested. */
  lemma NoActiveCard(prs: seq<PullRequest>)
    ensures |PendingPrs(prs)| == 0 <==> forall pr :: pr in prs ==> !IsActive(pr)
  {
    var r := PendingPrs(prs);
    if r != [] {
      assert r[0] in r;
    }
  }

  /** `getStatusBadge`: the label of the status badge. */
  function StatusLabel(status: string): (badge: string)
    ensures badge == "Unknown" <==> !IsKnownStatus(status)
  {
    if status == StatusPending then "Pending Review"
    else if status == StatusMerged then "Merged"
    else if status == StatusChangesRequested then "Changes Requested"
    else if status == StatusRejected then "Closed"
    else "Unknown"
  }

  /** Different known statuses get different labels. */
  lemma LabelsDistinct(a: string, b: string)
    requires IsKnownStatus(a) && IsKnownStatus(b) && a != b
    ensures StatusLabel(a) != StatusLabel(b)
  {
  }

  /** The "Address Feedback" link of an Active row, if it has one. */
  function AddressFeedbackLink(pr: PullRequest): (link: Option<string>)
    ensures link.Some? <==> pr.status == StatusChangesRequested
    ensures link.Some? ==> link.value == "/changes-requested/" + pr.id
  {
    if pr.status == StatusChangesRequested then Some("/changes-requested/" + pr.id) else None
  }

  /** The "View Summary" link of a Completed row, if it has one. */
  function ViewSummaryLink(pr: PullRequest): (link: Option<string>)
    ensures link.Some? <==> pr.status == StatusMerged
    ensures link.Some? ==> link.value == "/success/" + pr.id
  {
    if pr.status == StatusMerged then Some("/success/" + pr.id) else None
  }

  /** How JavaScript renders an optional string inside a template. */
  function Render(s: Option<string>): string
  {
    match s
    case Some(v) => v
    case None => "undefined"
  }

  /** The last part of a Completed row's detail line. */
  function CompletedDetail(pr: PullRequest): (d: string)
    ensures pr.status == StatusMerged ==> d == "Merged " + Render(pr.mergedAt)
    ensures pr.status != StatusMerged ==> d == "Closed"
  {
    if pr.status == StatusMerged then "Merged " + Render(pr.mergedAt) else "Closed"
  }

  /** On the Completed tab, a row offers the summary link exactly when its
      detail line says it was merged. */
  lemma CompletedRowsAgree(prs: seq<PullRequest>, pr: PullRequest)
    requires pr in CompletedPrs(prs)
    ensures ViewSummaryLink(pr).Some? <==> "Merged " <= CompletedDetail(pr)
    ensures StatusLabel(pr.status) in {"Merged", "Closed"}
  {
  }

  /** Each row link is offered on the tab that renders it: Address Feedback
      only on Active rows, View Summary only on Completed rows. */
  lemma RowLinksOnTheirTabs(prs: seq<PullRequest>, pr: PullRequest)
    requires pr in prs
    ensures AddressFeedbackLink(pr).Some? ==> pr in PendingPrs(prs) && pr !in CompletedPrs(prs)
    ensures ViewSummaryLink(pr).Some? ==> pr in CompletedPrs(prs) && pr !in PendingPrs(prs)
  {
  }

  /** An Active row's feedback box is rendered: the feedback is present and
      not empty. */
  predicate ShowsFeedback(pr: PullRequest)
  {
    pr.feedback.Some? && pr.feedback.value != ""
  }

  /** `getStatusIcon`: the icon beside each row, by its component name. */
  function StatusIcon(status: string): (icon: string)
    ensures icon == "GitPullRequest" <==> !IsKnownStatus(status)
  {
    if status == StatusPending then "Clock"
    else if status == StatusMerged then "CheckCircle2"
    else if status == StatusChangesRequested then "AlertCircle"
    else if status == StatusRejected then "XCircle"
    else "GitPullRequest"
  }

  /** Badge and icon are chosen by the same cases: two statuses share a badge
      exactly when they share an icon. */
  lemma BadgeAndIconAgree(a: string, b: string)
    ensures StatusLabel(a) == StatusLabel(b) <==> StatusIcon(a) == StatusIcon(b)
  {
  }

  /** The three pull requests the page lists. */
  function MockPullRequests(): seq<PullRequest>
  {
    [ PullRequest("28550", "docs(readme): fix typo in dependencies word", "facebook/react",
        StatusPending, "2 hours ago", Some("Just now"), None, 3, 3, None),
      PullRequest("15230", "fix: correct modal accessibility issue", "vercel/next.js",
        StatusMerged, "5 days ago", None, Some("3 days ago"), 5, 5, None),
      PullRequest("8920", "docs: update installation guide", "tailwindlabs/tailwindcss",
        StatusChangesRequested, "1 week ago", Some("2 days ago"), None, 4, 4,
        Some("Please update the Node.js version requirement")) ]
  }

  /** On the listed data the tabs read "Active (2)" and "Completed (1)". */
  lemma MockTabCounts()
    ensures |PendingPrs(MockPullRequests())| == 2
    ensures |CompletedPrs(MockPullRequests())| == 1
  {
    var prs := MockPullRequests();
    assert PendingPrs(prs) == [prs[0], prs[2]];
    assert CompletedPrs(prs) == [prs[1]];
  }

  /** On the listed data, an Active row shows a feedback box exactly when it
      offers the Address Feedback link. */
  lemma MockFeedbackMatchesLink()
    ensures forall pr :: pr in PendingPrs(MockPullRequests()) ==>
      (ShowsFeedback(pr) <==> AddressFeedbackLink(pr).Some?)
  {
    var prs := MockPullRequests();
    assert PendingPrs(prs) == [prs[0], prs[2]];
  }
}
