/** src/app/page.tsx: the category accordion, of which at most one panel is open. */
module HomePage {
  import opened Common

  /** `expanded`: the open category, or `false` (None) when all are collapsed. */
  predicate IsOpen(expanded: Option<string>, category: string)
  {
    expanded == Some(category)
  }

  /** `handleAccordionChange(category)`: collapse the open panel, or open this one
      and close whichever was open. */
  function Toggle(expanded: Option<string>, category: string): (r: Option<string>)
    ensures IsOpen(r, category) <==> !IsOpen(expanded, category)
    ensures forall other :: other != category ==> !IsOpen(r, other)
  {
    if expanded == Some(category) then None else Some(category)
  }

  /** A single state names at most one open panel. */
  lemma AtMostOneOpen(expanded: Option<string>, a: string, b: string)
    requires IsOpen(expanded, a) && IsOpen(expanded, b)
    ensures a == b
  {
  }

  /** Clicking the same header twice from any state where it is closed returns
      to all-collapsed, not to the earlier panel. */
  lemma ToggleTwice(expanded: Option<string>, category: string)
    requires !IsOpen(expanded, category)
    ensures Toggle(Toggle(expanded, category), category) == None
  {
  }

  /** Clicking two different headers in turn leaves only the second one open. */
  lemma ToggleOtherSwitches(expanded: Option<string>, a: string, b: string)
    requires a != b
    ensures Toggle(Toggle(expanded, a), b) == Some(b)
  {
  }
}
