/** The quality gate: a fixed list of checks that a simulated runner
    advances strictly in order, each from pending to running to passed,
    and the aggregate values the page derives from the list. The runner's
    timer delays are left out; each state change is one discrete step. */
module QualityGate {
  import opened Common

  datatype CheckStatus = Pending | Running | Passed | Failed

  /** One row of the gate. `icon` names the icon component. */
  datatype QualityCheck = QualityCheck(
    id: string,
    name: string,
    description: string,
    icon: string,
    status: CheckStatus,
    message: Option<string>)

  /** The four checks the page starts with, all pending. */
  function InitialChecks(): seq<QualityCheck>
  {
    [ QualityCheck("diff", "Diff Validation", "Verifying changes match expected scope",
        "FileSearch", Pending, None),
      QualityCheck("lint", "Linting", "Checking code style and formatting",
        "Code2", Pending, None),
      QualityCheck("spell", "Spell Check", "Checking for spelling errors",
        "SpellCheck", Pending, None),
      QualityCheck("explanation", "Explanation Quality", "Verifying commit message quality",
        "Shield", Pending, None) ]
  }

  /** The ids that have a message of their own. */
  const KnownIds: seq<string> := ["diff", "lint", "spell", "explanation"]

  const DefaultMessage: string := "Check passed"

  /** The message a check shows once it has passed: a fixed sentence for each
      known id, and the generic default for any other id. */
  function SuccessMessage(id: string): (m: string)
    ensures m != DefaultMessage <==> id in KnownIds
  {
    if id == "diff" then "Changes are within expected scope"
    else if id == "lint" then "No style issues found"
    else if id == "spell" then "No spelling errors detected"
    else if id == "explanation" then "Commit message follows conventions"
    else DefaultMessage
  }

  /** Distinct known checks never share a message. */
  lemma SuccessMessagesDistinct(a: string, b: string)
    requires a in KnownIds && b in KnownIds && a != b
    ensures SuccessMessage(a) != SuccessMessage(b)
  {
  }

  const Terminal: set<CheckStatus> := {Passed, Failed}

  /** How many checks have a status in `st` (the length of a `filter`). */
  function CountWhere(s: seq<QualityCheck>, st: set<CheckStatus>): (n: nat)
    ensures n <= |s|
    ensures n == |s| <==> forall j :: 0 <= j < |s| ==> s[j].status in st
    ensures n == 0 <==> forall j :: 0 <= j < |s| ==> s[j].status !in st
  {
    if s == [] then 0
    else (if s[0].status in st then 1 else 0) + CountWhere(s[1..], st)
  }

  /** `allPassed` */
  predicate AllPassed(s: seq<QualityCheck>)
  {
    forall j :: 0 <= j < |s| ==> s[j].status == Passed
  }

  /** `anyFailed` */
  predicate AnyFailed(s: seq<QualityCheck>)
  {
    exists j :: 0 <= j < |s| && s[j].status == Failed
  }

  /** The Create Pull Request button is enabled. */
  predicate CreatePrEnabled(s: seq<QualityCheck>)
  {
    AllPassed(s)
  }

  /** `progress`: the share of terminal checks, as a percentage. With no
      checks at all the page divides 0 by 0, which is NaN: `None`. */
  function Progress(s: seq<QualityCheck>): (r: Option<real>)
    ensures r.Some? <==> |s| > 0
    ensures r.Some? ==> 0.0 <= r.value <= 100.0
    ensures r.Some? ==> (r.value == 100.0 <==> forall j :: 0 <= j < |s| ==> s[j].status in Terminal)
    ensures r.Some? ==> (r.value == 0.0 <==> forall j :: 0 <= j < |s| ==> s[j].status !in Terminal)
  {
    if |s| == 0 then None
    else
      var c, n := CountWhere(s, Terminal), |s|;
      Percentage(c, n);
      Some(c as real / n as real * 100.0)
  }

  lemma Percentage(c: nat, n: nat)
    requires 0 < n && c <= n
    ensures 0.0 <= c as real / n as real * 100.0 <= 100.0
    ensures c as real / n as real * 100.0 == 100.0 <==> c == n
    ensures c as real / n as real * 100.0 == 0.0 <==> c == 0
  {
    var q := c as real / n as real;
    assert q * n as real == c as real;
    assert q <= 1.0 by {
      if q > 1.0 {
        assert q * n as real > 1.0 * n as real;
      }
    }
    assert q == 1.0 <==> c == n;
  }

  /** The progress bar for `c` of `n` checks done grows with `c`. */
  lemma PercentageGrows(c: nat, d: nat, n: nat)
    requires 0 < n && c < d <= n
    ensures c as real / n as real * 100.0 < d as real / n as real * 100.0
  {
    var qc, qd := c as real / n as real, d as real / n as real;
    assert qd - qc == (d - c) as real / n as real;
    assert (d - c) as real / n as real > 0.0;
  }

  /** The heading above the progress bar. */
  function StatusText(isRunning: bool, s: seq<QualityCheck>): string
  {
    if isRunning then "Running checks..."
    else if AllPassed(s) then "All checks passed!"
    else "Checks complete"
  }

  // ----- the sequencer, one step at a time -----

  /** The element `prev.map` produces for the check being started. */
  function Started(c: QualityCheck): QualityCheck
  {
    c.(status := Running)
  }

  /** The element `prev.map` produces for the check that has passed: the
      spread keeps every other field. */
  function Completed(c: QualityCheck): QualityCheck
  {
    c.(status := Passed, message := Some(SuccessMessage(c.id)))
  }

  /** First update of iteration `i`: only check `i` changes. */
  function Start(s: seq<QualityCheck>, i: nat): seq<QualityCheck>
    requires i < |s|
  {
    s[i := Started(s[i])]
  }

  /** Second update of iteration `i`: only check `i` changes. */
  function Pass(s: seq<QualityCheck>, i: nat): seq<QualityCheck>
    requires i < |s|
  {
    s[i := Completed(s[i])]
  }

  /** Both updates of iteration `i` leave every other check as it was, and
      keep the id, name, description and icon of check `i`; starting never
      touches the message, passing sets the check's own success message. */
  lemma UpdatesTouchOneCheck(s: seq<QualityCheck>, i: nat)
    requires i < |s|
    ensures |Start(s, i)| == |s| && |Pass(s, i)| == |s|
    ensures forall j :: 0 <= j < |s| && j != i ==> Start(s, i)[j] == s[j] && Pass(s, i)[j] == s[j]
    ensures forall t :: t in [Start(s, i)[i], Pass(s, i)[i]] ==>
      t.id == s[i].id && t.name == s[i].name && t.description == s[i].description && t.icon == s[i].icon
    ensures Start(s, i)[i].status == Running && Start(s, i)[i].message == s[i].message
    ensures Pass(s, i)[i].status == Passed && Pass(s, i)[i].message == Some(SuccessMessage(s[i].id))
  {
  }

  /** Every check completed, as after the whole run. */
  function PassAll(s: seq<QualityCheck>): seq<QualityCheck>
  {
    seq(|s|, j requires 0 <= j < |s| => Completed(s[j]))
  }

  /** Position in the order pending < running < passed/failed. */
  function Rank(st: CheckStatus): nat
  {
    match st
    case Pending => 0
    case Running => 1
    case Passed => 2
    case Failed => 2
  }

  /** The status check `j` has while iteration `i` is at the given phase. */
  function StatusDuring(j: nat, i: nat, running: bool): CheckStatus
  {
    if j < i then Passed else if j == i && running then Running else Pending
  }

  /** The runner is in iteration `i`: every check before `i` has passed,
      check `i` is running when `running` holds, every later check is
      pending. `SequencerAt(s, |s|, false)` is the finished run. */
  predicate SequencerAt(s: seq<QualityCheck>, i: nat, running: bool)
  {
    && i <= |s|
    && (running ==> i < |s|)
    && forall j :: 0 <= j < |s| ==> s[j].status == StatusDuring(j, i, running)
  }

  /** Statuses that fill exactly the positions `lo` to `hi` are counted
      `hi - lo` times. */
  lemma {:induction false} CountInterval(s: seq<QualityCheck>, st: set<CheckStatus>, lo: nat, hi: nat)
    requires lo <= hi <= |s|
    requires forall j :: 0 <= j < |s| ==> (s[j].status in st <==> lo <= j < hi)
    ensures CountWhere(s, st) == hi - lo
  {
    if s != [] {
      assert forall j :: 0 <= j < |s| - 1 ==> s[1..][j] == s[j + 1];
      if lo > 0 {
        CountInterval(s[1..], st, lo - 1, hi - 1);
      } else if hi > 0 {
        CountInterval(s[1..], st, 0, hi - 1);
      } else {
        CountInterval(s[1..], st, 0, 0);
      }
    }
  }

  /** In iteration `i`, exactly `i` checks are terminal and at most one is
      running; none has failed. */
  lemma SequencerCounts(s: seq<QualityCheck>, i: nat, running: bool)
    requires SequencerAt(s, i, running)
    ensures CountWhere(s, Terminal) == i
    ensures CountWhere(s, {Running}) == if running then 1 else 0
    ensures !AnyFailed(s)
  {
    CountInterval(s, Terminal, 0, i);
    CountInterval(s, {Running}, i, if running then i + 1 else i);
  }

  /** Progress in iteration `i` is `i` out of `|s|`. */
  lemma SequencerProgress(s: seq<QualityCheck>, i: nat, running: bool)
    requires SequencerAt(s, i, running) && |s| > 0
    ensures Progress(s) == Some(i as real / |s| as real * 100.0)
  {
    SequencerCounts(s, i, running);
  }

  /** Starting check `i` makes it the one running check, regresses nothing
      and leaves the progress unchanged. */
  lemma StartStep(s: seq<QualityCheck>, i: nat)
    requires SequencerAt(s, i, false) && i < |s|
    ensures SequencerAt(Start(s, i), i, true)
    ensures forall j :: 0 <= j < |s| ==> Rank(s[j].status) <= Rank(Start(s, i)[j].status)
    ensures Progress(Start(s, i)) == Progress(s)
  {
    SequencerProgress(s, i, false);
    SequencerProgress(Start(s, i), i, true);
  }

  /** Passing the running check `i` moves the runner to iteration `i + 1`,
      regresses nothing and strictly raises the progress. */
  lemma PassStep(s: seq<QualityCheck>, i: nat)
    requires SequencerAt(s, i, true)
    ensures SequencerAt(Pass(s, i), i + 1, false)
    ensures forall j :: 0 <= j < |s| ==> Rank(s[j].status) <= Rank(Pass(s, i)[j].status)
    ensures Progress(s).value < Progress(Pass(s, i)).value
  {
    SequencerProgress(s, i, true);
    SequencerProgress(Pass(s, i), i + 1, false);
    PercentageGrows(i, i + 1, |s|);
  }

  /** After the last iteration every check has passed, nothing failed, the
      Create Pull Request button is enabled and progress is 100. */
  lemma SequencerFinished(s: seq<QualityCheck>)
    requires SequencerAt(s, |s|, false)
    ensures AllPassed(s) && !AnyFailed(s) && CreatePrEnabled(s)
    ensures |s| > 0 ==> Progress(s) == Some(100.0)
  {
  }

  /** The page mounts in iteration 0 with nothing running. */
  lemma InitialChecksArePending()
    ensures SequencerAt(InitialChecks(), 0, false)
    ensures Progress(InitialChecks()) == Some(0.0)
  {
  }

  /** Step `k` of a run (counting from 0): even steps start check `k / 2`,
      odd steps pass it. */
  function Step(s: seq<QualityCheck>, k: nat): seq<QualityCheck>
  {
    if k / 2 >= |s| then s
    else if k % 2 == 0 then Start(s, k / 2)
    else Pass(s, k / 2)
  }

  /** `trace` is the sequence of states a run shows, from `s0` on: each
      state is the previous one advanced by one step, and state `k` is in
      iteration `k / 2`, running when `k` is odd. */
  predicate IsRun(trace: seq<seq<QualityCheck>>, s0: seq<QualityCheck>)
  {
    && |trace| > 0
    && trace[0] == s0
    && (forall k :: 0 <= k < |trace| ==> |trace[k]| == |s0| && SequencerAt(trace[k], k / 2, k % 2 == 1))
    && (forall k :: 0 < k < |trace| ==> trace[k] == Step(trace[k - 1], k - 1))
  }

  lemma ExtendRun(trace: seq<seq<QualityCheck>>, s0: seq<QualityCheck>, x: seq<QualityCheck>)
    requires IsRun(trace, s0)
    requires x == Step(trace[|trace| - 1], |trace| - 1)
    requires |x| == |s0| && SequencerAt(x, |trace| / 2, |trace| % 2 == 1)
    ensures IsRun(trace + [x], s0)
  {
    var t := trace + [x];
    assert forall k :: 0 <= k < |trace| ==> t[k] == trace[k];
    assert t[|trace|] == x;
  }

  /** Along a run, at most one check is ever running, none ever fails, no
      check's status ever moves backwards, and progress never decreases. */
  lemma {:induction false} RunProperties(trace: seq<seq<QualityCheck>>, s0: seq<QualityCheck>)
    requires IsRun(trace, s0)
    ensures forall k :: 0 <= k < |trace| ==> CountWhere(trace[k], {Running}) <= 1 && !AnyFailed(trace[k])
    ensures forall k, j {:trigger trace[k][j]} :: 0 < k < |trace| && 0 <= j < |s0| ==>
      Rank(trace[k - 1][j].status) <= Rank(trace[k][j].status)
    ensures forall k :: 0 < k < |trace| ==>
      CountWhere(trace[k - 1], Terminal) <= CountWhere(trace[k], Terminal)
  {
    forall k | 0 <= k < |trace|
      ensures CountWhere(trace[k], {Running}) <= 1 && !AnyFailed(trace[k])
      ensures CountWhere(trace[k], Terminal) == k / 2
    {
      SequencerCounts(trace[k], k / 2, k % 2 == 1);
    }
    forall k | 0 < k < |trace|
      ensures CountWhere(trace[k - 1], Terminal) <= CountWhere(trace[k], Terminal)
    {
      assert (k - 1) / 2 <= k / 2;
    }
  }

  /** The quality-gate page's state: the check list and the running flag. */
  class CheckRunner {
    var checks: array<QualityCheck>
    var isRunning: bool

    constructor ()
      ensures fresh(checks)
      ensures checks[..] == InitialChecks() && isRunning
    {
      var initial := InitialChecks();
      checks := new QualityCheck[4](i requires 0 <= i < 4 => initial[i]);
      isRunning := true;
    }

    /** `setChecks(prev => prev.map(...))` setting check `i` running. */
    method MarkRunning(i: nat)
      requires i < checks.Length
      modifies checks
      ensures checks[..] == Start(old(checks[..]), i)
    {
      checks[i] := Started(checks[i]);
    }

    /** `setChecks(prev => prev.map(...))` marking check `i` passed. */
    method MarkPassed(i: nat)
      requires i < checks.Length
      modifies checks
      ensures checks[..] == Pass(old(checks[..]), i)
    {
      checks[i] := Completed(checks[i]);
    }

    /** One iteration of `runChecks`: start check `i`, then pass it. The
        ghost `trace` is the run so far; `next` is the run with the two new
        states appended. */
    method Advance(i: nat, ghost s0: seq<QualityCheck>, ghost trace: seq<seq<QualityCheck>>)
      returns (ghost next: seq<seq<QualityCheck>>)
      requires i < checks.Length && SequencerAt(checks[..], i, false)
      requires IsRun(trace, s0) && |trace| == 2 * i + 1 && trace[|trace| - 1] == checks[..]
      modifies checks
      ensures checks[..] == Pass(Start(old(checks[..]), i), i)
      ensures SequencerAt(checks[..], i + 1, false)
      ensures IsRun(next, s0) && |next| == 2 * i + 3 && next[|next| - 1] == checks[..]
    {
      StartStep(checks[..], i);
      MarkRunning(i);
      ExtendRun(trace, s0, checks[..]);
      next := trace + [checks[..]];
      PassStep(checks[..], i);
      MarkPassed(i);
      ExtendRun(next, s0, checks[..]);
      next := next + [checks[..]];
    }

    /** `runChecks`: for each check in order, start it, then pass it; then
        clear the running flag. The ghost `trace` is every state the page
        shows, from the mount state to the final one. */
    method RunChecks() returns (ghost trace: seq<seq<QualityCheck>>)
      requires SequencerAt(checks[..], 0, false)
      modifies this`isRunning, checks
      ensures !isRunning
      ensures checks[..] == PassAll(old(checks[..]))
      ensures AllPassed(checks[..]) && !AnyFailed(checks[..]) && CreatePrEnabled(checks[..])
      ensures StatusText(isRunning, checks[..]) == "All checks passed!"
      ensures IsRun(trace, old(checks[..]))
      ensures |trace| == 2 * checks.Length + 1 && trace[|trace| - 1] == checks[..]
    {
      var n := checks.Length;
      ghost var s0 := checks[..];
      trace := [s0];
      var i := 0;
      while i < n
        invariant 0 <= i <= n
        invariant forall j :: 0 <= j < n ==> checks[j] == if j < i then Completed(s0[j]) else s0[j]
        invariant SequencerAt(checks[..], i, false)
        invariant IsRun(trace, s0)
        invariant |trace| == 2 * i + 1 && trace[|trace| - 1] == checks[..]
      {
        trace := Advance(i, s0, trace);
        i := i + 1;
      }
      isRunning := false;
      assert checks[..] == PassAll(s0);
      SequencerFinished(checks[..]);
    }
  }
}
