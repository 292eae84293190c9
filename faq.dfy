/**
 * The accordion of the FAQ section: at most one question is open at a time,
 * and clicking a question either closes it (when it is the open one) or opens
 * it in place of whichever was open.
 */
module Faq {
  import opened Wrappers

  /** Whether the question at `index` shows its answer. */
  predicate IsOpen(open: Option<nat>, index: nat) {
    open == Some(index)
  }

  /** The click handler's new `openIndex`. */
  function Toggle(open: Option<nat>, index: nat): (r: Option<nat>)
    ensures forall j: nat :: IsOpen(r, j) <==> j == index && !IsOpen(open, index)
  {
    if open == Some(index) then None else Some(index)
  }

  /** Clicking the same question twice closes the accordion, unless that question was already open. */
  lemma ToggleTwice(open: Option<nat>, index: nat)
    ensures Toggle(Toggle(open, index), index) == if IsOpen(open, index) then open else None
  {
  }

  /** The `openIndex` state cell of the FAQ section. */
  class Accordion {
    var openIndex: Option<nat>

    constructor ()
      ensures openIndex == None
    {
      openIndex := None;
    }

    method Click(index: nat)
      modifies this
      ensures openIndex == Toggle(old(openIndex), index)
    {
      openIndex := Toggle(openIndex, index);
    }
  }
}
