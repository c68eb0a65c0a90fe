/**
 * The two tests the slot list applies to each slot: whether it is full
 * (its button is disabled) and whether it is the selected one.
 */
module SlotList {
  import opened Wrappers

  /** One offering of a course as the slots endpoint lists it. */
  datatype Slot = Slot(date: string, time: string, capacity: int, remaining: int)

  /** What the session remembers of a chosen slot: the object `{date, time}`. */
  datatype SlotKey = SlotKey(date: string, time: string)

  /** `s.remaining <= 0`. */
  predicate IsFull(s: Slot)
  {
    s.remaining <= 0
  }

  /** `selected && selected.date === s.date && selected.time === s.time`. */
  predicate IsSelected(selected: Option<SlotKey>, s: Slot)
  {
    selected.Some? && selected.value.date == s.date && selected.value.time == s.time
  }

  /** What a click on the button of `s` hands to `onSelect`; `None` when the
      button is disabled because the slot is full. */
  function Click(s: Slot): (r: Option<SlotKey>)
    ensures r.Some? <==> !IsFull(s)
    ensures r.Some? ==> r.value.date == s.date && r.value.time == s.time
    ensures r.Some? ==> IsSelected(r, s)
  {
    if IsFull(s) then None else Some(SlotKey(s.date, s.time))
  }

  /** A slot shows as selected exactly when the stored key is its date and time. */
  lemma SelectedIffKey(selected: Option<SlotKey>, s: Slot)
    ensures IsSelected(selected, s) <==> selected == Some(SlotKey(s.date, s.time))
  {
  }

  /** No two slots of the list share a date and a time. */
  ghost predicate DistinctKeys(slots: seq<Slot>)
  {
    forall i, j :: 0 <= i < j < |slots| ==>
      slots[i].date != slots[j].date || slots[i].time != slots[j].time
  }

  /** In a list whose slots have distinct date and time, at most one shows as selected. */
  lemma AtMostOneSelected(slots: seq<Slot>, selected: Option<SlotKey>, i: nat, j: nat)
    requires DistinctKeys(slots)
    requires i < |slots| && j < |slots|
    requires IsSelected(selected, slots[i]) && IsSelected(selected, slots[j])
    ensures i == j
  {
  }
}
