/** `PaginationBuilder`: the row of step links at the foot of every wizard
    page, and the rule that locks them. */
module Paginator {
  import opened Values

  /** The step titles, in order; the third keeps the source's spelling, and
      pages find themselves in this list by it. */
  const PaginationSteps: seq<string> :=
    ["Select Artifacts", "Configure Parameters", "Specify Resorces", "Review", "Launch"]

  /** A builder for one page: its step `name`, its `title`, and an optional
      override of the focus rule. */
  datatype Builder = Builder(name: string, title: string, shouldFocused: Option<(bool, string) -> bool>)

  /** `shouldFocused(isFocused, step)`, by default `isFocused`. */
  function FocusRule(b: Builder, isFocused: bool, step: string): (focused: bool)
  {
    match b.shouldFocused
    case Some(f) => f(isFocused, step)
    case None => isFocused
  }

  /** What a click on a step link does: run the page's `onBlur` when it has
      one, then `goToStep(target)` (steps count from 1). */
  datatype Click = Click(runsBlur: bool, target: nat)

  /** One rendered `Pagination.Item`. */
  datatype Item = Item(step: string, key: nat, active: bool, disabled: bool, onClick: Option<Click>)

  function MakeItem(b: Builder, isFocused: bool, hasBlur: bool, i: nat): (item: Item)
    requires i < |PaginationSteps|
  {
    var step := PaginationSteps[i];
    if step == b.name then Item(step, i, true, false, None)
    else Item(step, i, false, FocusRule(b, isFocused, step), Some(Click(hasBlur, i + 1)))
  }

  /** `makePaginator`: one item per step. The page's own step is active and
      has no click handler; every other step is disabled exactly when the
      focus rule holds, and a click on it leaves the page for that step. */
  function MakePaginator(b: Builder, isFocused: bool, hasBlur: bool): (items: seq<Item>)
    ensures |items| == |PaginationSteps|
    ensures forall i :: 0 <= i < |items| ==> items[i].step == PaginationSteps[i] && items[i].key == i
    ensures forall i :: 0 <= i < |items| ==> (items[i].active <==> PaginationSteps[i] == b.name)
    ensures forall i :: 0 <= i < |items| && items[i].active ==> items[i].onClick.None? && !items[i].disabled
    ensures forall i :: 0 <= i < |items| && !items[i].active ==>
              items[i].disabled == FocusRule(b, isFocused, PaginationSteps[i])
              && items[i].onClick == Some(Click(hasBlur, i + 1))
  {
    seq(|PaginationSteps|, i requires 0 <= i < |PaginationSteps| => MakeItem(b, isFocused, hasBlur, i))
  }

  /** The step widget's answer to a click on item `i`: an active or disabled
      item does nothing, any other item runs its handler. */
  function ClickItem(items: seq<Item>, i: nat): (c: Option<Click>)
    requires i < |items|
  {
    if items[i].active || items[i].disabled then None else items[i].onClick
  }

  /** The step shown after a click on item `i` while on step `current`. */
  function StepAfterClick(items: seq<Item>, current: nat, i: nat): (step: nat)
    requires i < |items|
  {
    match ClickItem(items, i)
    case Some(c) => c.target
    case None => current
  }

  /** With the default rule, a focused page cannot be left by any step
      link, and an unfocused page can be left for every other step. */
  lemma FocusLocksNavigation(b: Builder, isFocused: bool, hasBlur: bool, current: nat, i: nat)
    requires b.shouldFocused.None? && i < |PaginationSteps|
    ensures isFocused ==> StepAfterClick(MakePaginator(b, isFocused, hasBlur), current, i) == current
    ensures !isFocused && PaginationSteps[i] != b.name ==>
              ClickItem(MakePaginator(b, isFocused, hasBlur), i) == Some(Click(hasBlur, i + 1))
  {
  }

  /** The pages' builders. */
  const SelectBuilder := Builder("Select Artifacts", "New Collection: Select Artifacts to collect", None)
  const ParametersBuilder := Builder("Configure Parameters", "New Collection: Configure Parameters", None)
  const ResourcesBuilder := Builder("Specify Resorces", "New Collection: Specify Resources", None)
  const ReviewBuilder := Builder("Review", "New Collection: Review request", None)

  /** Each page's builder makes exactly its own step's item active. */
  lemma BuildersMatchSteps(k: nat)
    requires k < 4
    ensures var b := [SelectBuilder, ParametersBuilder, ResourcesBuilder, ReviewBuilder][k];
            forall i :: 0 <= i < |PaginationSteps| ==> (MakePaginator(b, false, false)[i].active <==> i == k)
  {
  }
}
