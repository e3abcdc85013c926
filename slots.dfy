/** Slot ids of a fixed-capacity table: ids are `0 .. capacity - 1`. */
module Slots {

  /** Every id of `used` is a slot id of a table with `capacity` slots. */
  ghost predicate InRange(used: set<int>, capacity: nat)
  {
    forall id :: id in used ==> 0 <= id < capacity
  }

  /** A table that holds fewer entries than its capacity has a free slot. */
  lemma {:induction false} FreeSlotExists(used: set<int>, capacity: nat) returns (slot: int)
    requires InRange(used, capacity)
    requires |used| < capacity
    ensures 0 <= slot < capacity && slot !in used
  {
    if capacity - 1 !in used {
      slot := capacity - 1;
    } else {
      var rest := used - {capacity - 1};
      assert |rest| == |used| - 1;
      slot := FreeSlotExists(rest, capacity - 1);
    }
  }
}
