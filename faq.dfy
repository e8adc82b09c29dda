/** The FAQ accordion (src/pages/Home/FAQ/FAQ.jsx): one `activeIndex`, at most one answer open. */
module FaqSection {
  import opened Api

  const Count := 4

  /** The click handler's new value: `activeIndex === index ? null : index`. */
  function Toggled(active: Option<nat>, i: nat): (r: Option<nat>)
    ensures r == Some(i) <==> active != Some(i)
    ensures r.None? <==> active == Some(i)
  {
    if active == Some(i) then None else Some(i)
  }

  /** `activeIndex === index` */
  predicate IsOpen(active: Option<nat>, i: nat) {
    active == Some(i)
  }

  /** Clicking an item twice restores a closed accordion or the item's own open state... */
  lemma ToggleTwiceRestores(active: Option<nat>, i: nat)
    requires active.None? || active == Some(i)
    ensures Toggled(Toggled(active, i), i) == active
  {
  }

  /** ...but when another item was open, the two clicks leave everything closed. */
  lemma ToggleTwiceFromOther(j: nat, i: nat)
    requires j != i
    ensures Toggled(Toggled(Some(j), i), i).None?
  {
  }

  /** After a click the clicked item is the only candidate for being open. */
  lemma ToggleOpensOnlyClicked(active: Option<nat>, i: nat, k: nat)
    requires IsOpen(Toggled(active, i), k)
    ensures k == i && !IsOpen(active, i)
  {
  }

  class Faq {
    var activeIndex: Option<nat>

    predicate Valid()
      reads this
    {
      activeIndex.Some? ==> activeIndex.value < Count
    }

    constructor ()
      ensures Valid() && activeIndex.None?
    {
      activeIndex := None;
    }

    /** A click on the question of item `i` (there are four). */
    method Toggle(i: nat)
      requires Valid() && i < Count
      modifies this
      ensures Valid()
      ensures activeIndex == Toggled(old(activeIndex), i)
      ensures forall k :: IsOpen(activeIndex, k) ==> k == i
    {
      if activeIndex == Some(i) {
        activeIndex := None;
      } else {
        activeIndex := Some(i);
      }
    }
  }
}
