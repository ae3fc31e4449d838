/** The readiness check: three confirmations the contributor must tick
    before the workspace link is enabled, and the contribution type read
    from the query string. */
module Readiness {
  import opened Common

  /** The three checkboxes of the page. */
  datatype Confirmations = Confirmations(
    understandsTask: bool,
    acceptsScope: bool,
    acceptsRules: bool)

  function InitialConfirmations(): Confirmations
  {
    Confirmations(false, false, false)
  }

  /** `Object.values(checks)`, in declaration order. */
  function Values(c: Confirmations): seq<bool>
  {
    [c.understandsTask, c.acceptsScope, c.acceptsRules]
  }

  /** `Array.prototype.every(Boolean)` over booleans. */
  function Every(s: seq<bool>): (r: bool)
    ensures r <==> forall i :: 0 <= i < |s| ==> s[i]
  {
    if s == [] then true else s[0] && Every(s[1..])
  }

  /** `allChecked`. */
  function AllChecked(c: Confirmations): bool
  {
    Every(Values(c))
  }

  /** All are checked exactly when each of the three is. */
  lemma AllCheckedIffEach(c: Confirmations)
    ensures AllChecked(c) <==> c.understandsTask && c.acceptsScope && c.acceptsRules
  {
    assert Values(c)[0] == c.understandsTask;
    assert Values(c)[1] == c.acceptsScope;
    assert Values(c)[2] == c.acceptsRules;
  }

  /** The Start Contributing button's `disabled` attribute. */
  function StartDisabled(c: Confirmations): bool
  {
    !AllChecked(c)
  }

  /** The "Please confirm all checkboxes" hint is rendered. */
  predicate HintShown(c: Confirmations)
  {
    !AllChecked(c)
  }

  /** The page opens with nothing checked, Start Contributing disabled and
      the hint shown. */
  lemma InitiallyBlocked()
    ensures !AllChecked(InitialConfirmations())
    ensures StartDisabled(InitialConfirmations()) && HintShown(InitialConfirmations())
  {
    AllCheckedIffEach(InitialConfirmations());
  }

  /** Which checkbox an event comes from. */
  datatype Box = UnderstandsTask | AcceptsScope | AcceptsRules

  function Field(c: Confirmations, b: Box): bool
  {
    match b
    case UnderstandsTask => c.understandsTask
    case AcceptsScope => c.acceptsScope
    case AcceptsRules => c.acceptsRules
  }

  /** `setChecks({ ...checks, <box>: checked })`: the box takes the new
      value, the other two keep theirs. */
  function SetBox(c: Confirmations, b: Box, checked: bool): (r: Confirmations)
    ensures Field(r, b) == checked
    ensures forall other :: other != b ==> Field(r, other) == Field(c, other)
  {
    match b
    case UnderstandsTask => c.(understandsTask := checked)
    case AcceptsScope => c.(acceptsScope := checked)
    case AcceptsRules => c.(acceptsRules := checked)
  }

  /** A checkbox change, as the handler receives it. */
  datatype CheckEvent = CheckEvent(box: Box, checked: bool)

  function ApplyAll(c: Confirmations, events: seq<CheckEvent>): Confirmations
    decreases |events|
  {
    if events == [] then c
    else ApplyAll(SetBox(c, events[0].box, events[0].checked), events[1..])
  }

  /** The value a box ends with: the one its last event set, or `start`
      when no event touched it. */
  function LastValue(events: seq<CheckEvent>, b: Box, start: bool): bool
    decreases |events|
  {
    if events == [] then start
    else LastValue(events[1..], b, if events[0].box == b then events[0].checked else start)
  }

  /** Each box ends with the value its last event gave it. */
  lemma {:induction false} BoxKeepsLastValue(c: Confirmations, events: seq<CheckEvent>, b: Box)
    ensures Field(ApplyAll(c, events), b) == LastValue(events, b, Field(c, b))
    decreases |events|
  {
    if events != [] {
      var next := SetBox(c, events[0].box, events[0].checked);
      BoxKeepsLastValue(next, events[1..], b);
    }
  }

  /** Start Contributing is enabled after a run of checkbox changes exactly
      when the last change of every box ticked it. */
  lemma EnabledIffEachLastTicked(events: seq<CheckEvent>)
    ensures !StartDisabled(ApplyAll(InitialConfirmations(), events)) <==>
      forall b :: LastValue(events, b, false)
  {
    var c := ApplyAll(InitialConfirmations(), events);
    AllCheckedIffEach(c);
    BoxKeepsLastValue(InitialConfirmations(), events, UnderstandsTask);
    BoxKeepsLastValue(InitialConfirmations(), events, AcceptsScope);
    BoxKeepsLastValue(InitialConfirmations(), events, AcceptsRules);
    assert forall b :: LastValue(events, b, false) == Field(c, b) by {
      forall b ensures LastValue(events, b, false) == Field(c, b) {
        BoxKeepsLastValue(InitialConfirmations(), events, b);
      }
    }
  }

  /** The page's state: the three checkboxes. */
  class ReadinessForm {
    var checks: Confirmations

    constructor()
      ensures checks == InitialConfirmations()
    {
      checks := InitialConfirmations();
    }

    /** The first checkbox's change handler. */
    method SetUnderstandsTask(checked: bool)
      modifies this
      ensures checks == SetBox(old(checks), UnderstandsTask, checked)
    {
      checks := checks.(understandsTask := checked);
    }

    /** The second checkbox's change handler. */
    method SetAcceptsScope(checked: bool)
      modifies this
      ensures checks == SetBox(old(checks), AcceptsScope, checked)
    {
      checks := checks.(acceptsScope := checked);
    }

    /** The third checkbox's change handler. */
    method SetAcceptsRules(checked: bool)
      modifies this
      ensures checks == SetBox(old(checks), AcceptsRules, checked)
    {
      checks := checks.(acceptsRules := checked);
    }
  }

  /** `searchParams.get("type") || "code"`: a missing or empty parameter
      falls back to code, any other value is taken as it is. */
  function ContributionTypeParam(param: Option<string>): (t: string)
    ensures param.Some? && param.value != "" ==> t == param.value
    ensures param.None? || param.value == "" ==> t == "code"
    ensures t != ""
  {
    if param.Some? && param.value != "" then param.value else "code"
  }

  /** The Start Contributing link. */
  function WorkspaceLink(issueId: string, contributionType: string): string
  {
    "/workspace?issueId=" + issueId + "&type=" + contributionType
  }

  /** The Back to Type Selection and Go Back links. */
  function BackLink(issueId: string): string
  {
    "/contribution-type/" + issueId
  }
}
