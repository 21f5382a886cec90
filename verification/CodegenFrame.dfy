/**
 * Where things live: the homes of a block's values, the frame, and when they do not collide.
 */
module CodegenFrame {
  import opened Riscv
  import opened Codegen

  /** The hypothesis the frame layout needs: with arguments to pass, no value outlives the registers. */
  predicate FrameSafe(fn: Fn) { fn.argCount == 0 || fn.valCount <= fn.Limit() }

  /** A byte range of the frame, as offsets from sp. */
  datatype Area = Area(lo: int, hi: int)

  predicate Apart(x: Area, y: Area) { x.hi <= y.lo || y.hi <= x.lo }

  predicate Within(x: Area, y: Area) { y.lo <= x.lo && x.hi <= y.hi }

  function OutgoingArea(fn: Fn): Area { Area(0, 4 * fn.SpillArgs()) }

  function SavedArea(fn: Fn): Area { Area(4 * fn.SpillArgs(), 4 * (fn.SpillArgs() + fn.Saved())) }

  function LocalsArea(fn: Fn): Area { Area(fn.VarSlot(0), fn.VarSlot(fn.varCount)) }

  function RaArea(fn: Fn): Area { Area(fn.Size() - 4, fn.Size()) }

  function WordArea(off: int): Area { Area(off, off + 4) }

  /** The slot of a value that does not fit the registers lies in the frame, off every other area. */
  predicate SpillSound(fn: Fn, index: nat)
  {
    var w := WordArea(fn.SpillSlot(index));
    && Within(w, Area(0, fn.Size())) && Aligned(w.lo)
    && Apart(w, OutgoingArea(fn)) && Apart(w, SavedArea(fn)) && Apart(w, LocalsArea(fn)) && Apart(w, RaArea(fn))
  }

  /** The areas of the frame are apart and inside it. It takes the fewest 16-byte units that hold the arguments after
      the eighth, every value, every local, and the four words reserved for the return address. */
  lemma FrameLayout(fn: Fn)
    ensures Apart(OutgoingArea(fn), SavedArea(fn)) && Apart(SavedArea(fn), LocalsArea(fn))
    ensures Apart(OutgoingArea(fn), LocalsArea(fn))
    ensures Apart(OutgoingArea(fn), RaArea(fn)) && Apart(SavedArea(fn), RaArea(fn)) && Apart(LocalsArea(fn), RaArea(fn))
    ensures Within(OutgoingArea(fn), Area(0, fn.Size())) && Within(SavedArea(fn), Area(0, fn.Size()))
    ensures Within(LocalsArea(fn), Area(0, fn.Size())) && Within(RaArea(fn), Area(0, fn.Size()))
    ensures OutgoingArea(fn).hi - OutgoingArea(fn).lo == if fn.argCount > 8 then 4 * (fn.argCount - 8) else 0
    ensures SavedArea(fn).hi - SavedArea(fn).lo == if fn.valCount < 13 then 4 * fn.valCount else 52
    ensures LocalsArea(fn).hi - LocalsArea(fn).lo == 4 * fn.varCount
    ensures var words := (if fn.argCount > 8 then fn.argCount - 8 else 0) + fn.valCount + fn.varCount + 4;
            fn.Size() % 16 == 0 && 4 * words <= fn.Size() < 4 * words + 16
  {
  }

  /** Every value that spills has a word of its own, off every other area, exactly when the function is
      frame-safe. */
  lemma SpillsSoundExactly(fn: Fn)
    ensures (forall i: nat :: fn.Limit() <= i < fn.valCount ==> SpillSound(fn, i)) <==> FrameSafe(fn)
    ensures forall i: nat, j: nat :: i != j ==> Apart(WordArea(fn.SpillSlot(i)), WordArea(fn.SpillSlot(j)))
  {
    if FrameSafe(fn) {
      forall i: nat | fn.Limit() <= i < fn.valCount ensures SpillSound(fn, i) {
      }
    } else {
      var i := fn.Limit();
      assert fn.Limit() <= i < fn.valCount && i < R_MAX;
      assert !SpillSound(fn, i);
    }
  }

  /** Different indices below the limit are in different registers, all of them caller-saved value registers. */
  lemma RegsApart(fn: Fn, i: nat, j: nat)
    requires i < fn.Limit() && j < fn.Limit()
    ensures fn.RegOf(i) == fn.RegOf(j) <==> i == j
    ensures match fn.RegOf(i) case T(n) => n < T_MAX case A(n) => fn.argCount <= n < A_MAX case _ => false
  {
  }
}
