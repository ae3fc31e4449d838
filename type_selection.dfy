/** Choosing a contribution type: five cards, of which only the suitable
    ones can be selected, an info box for the selection, and the Continue
    link that carries the selection to the readiness check. */
module TypeSelection {
  import opened Common

  datatype ContributionType = ContributionType(
    id: string,
    title: string,
    description: string,
    suitable: bool)

  /** The five cards, in page order. Only code and documentation are
      suitable for the issue at hand. */
  function ContributionTypes(): seq<ContributionType>
  {
    [ ContributionType("code", "Code",
        "Write or modify source code to implement features or fix bugs", true),
      ContributionType("docs", "Documentation",
        "Improve or add documentation, README files, or guides", true),
      ContributionType("tests", "Tests",
        "Add or improve test coverage for existing functionality", false),
      ContributionType("bug-report", "Bug Report",
        "Document a bug you've found with reproduction steps", false),
      ContributionType("ui-text", "UI Text",
        "Improve user-facing text, error messages, or labels", false) ]
  }

  /** The ids a selection can hold. */
  const SuitableIds: set<string> := {"code", "docs"}

  /** Exactly the cards marked suitable carry the ids in `SuitableIds`. */
  lemma SuitableCards(t: ContributionType)
    requires t in ContributionTypes()
    ensures t.suitable <==> t.id in SuitableIds
  {
  }

  /** A card click: a suitable card becomes the selection, any other card
      leaves the selection as it was. Clicking a selected card keeps it. */
  function Select(sel: Option<string>, t: ContributionType): (r: Option<string>)
    ensures t.suitable ==> r == Some(t.id)
    ensures !t.suitable ==> r == sel
  {
    if t.suitable then Some(t.id) else sel
  }

  /** A run of card clicks, in order. */
  function SelectAll(sel: Option<string>, clicks: seq<ContributionType>): Option<string>
    decreases |clicks|
  {
    if clicks == [] then sel else SelectAll(Select(sel, clicks[0]), clicks[1..])
  }

  /** Clicks are handled one after another. */
  lemma {:induction false} SelectAllAppend(sel: Option<string>, first: seq<ContributionType>, second: seq<ContributionType>)
    ensures SelectAll(sel, first + second) == SelectAll(SelectAll(sel, first), second)
    decreases |first|
  {
    if first != [] {
      assert (first + second)[0] == first[0];
      assert (first + second)[1..] == first[1..] + second;
      SelectAllAppend(Select(sel, first[0]), first[1..], second);
    } else {
      assert first + second == second;
    }
  }

  /** Clicks on unsuitable cards only leave the selection as it was. */
  lemma {:induction false} UnsuitableClicksIgnored(sel: Option<string>, clicks: seq<ContributionType>)
    requires forall k :: 0 <= k < |clicks| ==> !clicks[k].suitable
    ensures SelectAll(sel, clicks) == sel
    decreases |clicks|
  {
    if clicks != [] {
      UnsuitableClicksIgnored(sel, clicks[1..]);
    }
  }

  /** After a run of clicks the selection is the last suitable card
      clicked, whatever came before it. */
  lemma LastSuitableClickWins(sel: Option<string>, before: seq<ContributionType>, t: ContributionType, after: seq<ContributionType>)
    requires t.suitable
    requires forall k :: 0 <= k < |after| ==> !after[k].suitable
    ensures SelectAll(sel, before + [t] + after) == Some(t.id)
  {
    SelectAllAppend(sel, before + [t], after);
    SelectAllAppend(sel, before, [t]);
    UnsuitableClicksIgnored(Some(t.id), after);
  }

  /** What a selection may hold: nothing, or the id of a suitable card. */
  predicate ValidSelection(sel: Option<string>)
  {
    sel.None? || sel.value in SuitableIds
  }

  /** Clicking any card on the page keeps the selection valid. */
  lemma {:induction false} ClicksKeepSelectionValid(sel: Option<string>, clicks: seq<ContributionType>)
    requires ValidSelection(sel)
    requires forall k :: 0 <= k < |clicks| ==> clicks[k] in ContributionTypes()
    ensures ValidSelection(SelectAll(sel, clicks))
    decreases |clicks|
  {
    if clicks != [] {
      SuitableCards(clicks[0]);
      assert forall k :: 0 <= k < |clicks| - 1 ==> clicks[1..][k] == clicks[k + 1];
      ClicksKeepSelectionValid(Select(sel, clicks[0]), clicks[1..]);
    }
  }

  /** The page's state: the selected card's id, initially none. */
  class TypeSelector {
    var selectedType: Option<string>

    ghost predicate Valid()
      reads this
    {
      ValidSelection(selectedType)
    }

    constructor()
      ensures selectedType == None
      ensures Valid()
    {
      selectedType := None;
    }

    /** The card's click handler. */
    method Click(t: ContributionType)
      requires t in ContributionTypes()
      requires Valid()
      modifies this
      ensures selectedType == Select(old(selectedType), t)
      ensures Valid()
    {
      SuitableCards(t);
      if t.suitable {
        selectedType := Some(t.id);
      }
    }
  }

  /** JavaScript truthiness of the selection: null and "" are falsy. */
  predicate IsTruthy(sel: Option<string>)
  {
    sel.Some? && sel.value != ""
  }

  /** The Continue button's `disabled` attribute. */
  function ContinueDisabled(sel: Option<string>): (disabled: bool)
    ensures disabled <==> sel.None? || sel.value == ""
  {
    !IsTruthy(sel)
  }

  /** On every valid selection, Continue is disabled exactly while nothing
      is selected, and the info box is shown exactly while it is enabled. */
  lemma ContinueDisabledIffNoSelection(sel: Option<string>)
    requires ValidSelection(sel)
    ensures ContinueDisabled(sel) <==> sel.None?
    ensures InfoBoxShown(sel) <==> !ContinueDisabled(sel)
  {
  }

  /** The info box below the cards is rendered. */
  predicate InfoBoxShown(sel: Option<string>)
  {
    IsTruthy(sel)
  }

  /** The heading of the info box: one sentence for code, one for
      documentation, nothing for any other value. */
  function ChoiceHeading(sel: Option<string>): (h: string)
    ensures h != "" <==> sel == Some("code") || sel == Some("docs")
  {
    if sel == Some("code") then "You chose: Code Contribution"
    else if sel == Some("docs") then "You chose: Documentation Contribution"
    else ""
  }

  /** Whenever the info box is shown for a valid selection, it has a
      heading: the two sentences cover every selectable card. */
  lemma ShownInfoBoxHasHeading(sel: Option<string>)
    requires ValidSelection(sel)
    requires InfoBoxShown(sel)
    ensures ChoiceHeading(sel) != ""
  {
  }

  /** How a template renders a string that may be null. */
  function RenderNullable(sel: Option<string>): (s: string)
    ensures sel.Some? ==> s == sel.value
    ensures sel.None? ==> s == "null"
  {
    match sel
    case Some(v) => v
    case None => "null"
  }

  /** The Continue link. */
  function ContinueTarget(issueId: string, sel: Option<string>): string
  {
    "/readiness-check/" + issueId + "?type=" + RenderNullable(sel)
  }

  /** The Back to Issue and Go Back links. */
  function BackTarget(issueId: string): string
  {
    "/issue/" + issueId
  }
}
