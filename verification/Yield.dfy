/**
 * The deferred operands of src/yield.h: what an operand prints is decided when it is fetched and printed
 * when the instruction comes to it, first in, first out, at most two at a time.
 */
module Yield {
  import opened Riscv

  /** What is left to print of an operand. */
  datatype Deferred = InReg(r: Reg) | AtPlace(off: int, base: Reg)

  const YIELD_MAX := 2

  class YieldQueue {
    var begin: nat
    var end: nat
    const slots: array<Deferred>

    ghost predicate Valid()
      reads this
    {
      slots.Length == YIELD_MAX && begin <= end <= YIELD_MAX && (begin == end ==> end == 0)
    }

    /** What is still to be printed, in order. */
    ghost function Contents(): seq<Deferred>
      reads this, slots
      requires Valid()
    {
      slots[begin..end]
    }

    constructor ()
      ensures Valid() && Contents() == [] && fresh(slots)
    {
      begin, end, slots := 0, 0, new Deferred[YIELD_MAX](i => InReg(Zero));
    }

    /** yield: the caller returns, and resumes in Next */
    method Yield(x: Deferred)
      requires Valid() && end < YIELD_MAX
      modifies this`end, slots
      ensures Valid() && Contents() == old(Contents()) + [x] && end == old(end) + 1
    {
      slots[end] := x;
      end := end + 1;
    }

    /** next: resumes the oldest operand; once none is left the slots are free again */
    method Next() returns (x: Deferred)
      requires Valid() && end != 0
      modifies this`begin, this`end
      ensures Valid() && x == old(Contents())[0] && Contents() == old(Contents())[1..]
      ensures (end == 0) == (Contents() == [])
    {
      x := slots[begin];
      begin := begin + 1;
      if begin == end {
        begin, end := 0, 0;
      }
    }
  }
}
