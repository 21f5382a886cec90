/**
 * Each instruction's code does to the machine what the instruction does to the block's state.
 */
module CodegenInsts {
  import opened Words
  import opened Source
  import opened Koopa
  import opened Riscv
  import opened Codegen
  import opened CodegenFrame
  import opened CodegenValues

  /** What holds of the code's tables and counters while a block is printed. */
  ghost predicate TablesOk(a: Act, em: Em, live: Live)
  {
    && LiveIn(live, em) && StacksOk(a, em.stacks) && GlobalsPlaced(a)
    && FrameSafe(a.fn) && em.out <= a.fn.valCount && Aligned(a.base) && a.Above() <= a.top
  }

  /** The machine holds the state of the IR run: each live value in the home of its index, each local,
      temporary and global in its slot. */
  ghost predicate Matches(a: Act, em: Em, live: Live, c: Config, m: Machine)
  {
    && c.At? && FrameOk(a, m)
    && ValuesOk(a, live, c.regs, m) && MemoryOk(a, em.stacks, c.s, c.temps, m)
  }

  /** Nothing but spare registers changed. */
  lemma SameMemory(a: Act, em: Em, live: Live, c: Config, m: Machine, t: Machine)
    requires TablesOk(a, em, live) && Matches(a, em, live, c, m)
    requires Agree(a, em.out, m, t) && t.mem == m.mem
    ensures Matches(a, em, live, c, t)
  {
    assert forall x :: Peek(t, x) == Peek(m, x);
    assert ValuesOk(a, live, c.regs, t);
    hide ValueAt, StacksOk, GlobalsPlaced;
    MemorySame(a, em.stacks, c.s, c.temps, m, t, 0);
  }

  /** A result was written where no live value and no slot is. */
  lemma ResultElsewhere(a: Act, em: Em, live: Live, c: Config, m: Machine, t: Machine)
    requires TablesOk(a, em, live) && Matches(a, em, live, c, m)
    requires Agree(a, em.out, m, t) && em.out < a.fn.valCount
    ensures Matches(a, em, live, c, t)
  {
    assert ValuesOk(a, live, c.regs, t);
    if a.fn.Limit() <= em.out {
      SpillsSoundExactly(a.fn);
      FrameLayout(a.fn);
      assert SpillSound(a.fn, em.out);
      forall s | Placed(em.stacks, s) ensures AddressOf(a, em.stacks, s) != a.base + a.fn.SpillSlot(em.out) {
        SlotElsewhere(a, em.stacks, s, em.out);
      }
      hide ValueAt, StacksOk, GlobalsPlaced;
      MemorySame(a, em.stacks, c.s, c.temps, m, t, a.base + a.fn.SpillSlot(em.out));
    } else {
      hide ValueAt, StacksOk, GlobalsPlaced;
      assert forall x :: Peek(t, x) == Peek(m, x);
      MemorySame(a, em.stacks, c.s, c.temps, m, t, 0);
    }
  }

  /** Memory kept everywhere but at x keeps every slot that is not x. */
  lemma MemorySame(a: Act, stacks: Stacks, s: Source.Store, temps: Temps, m: Machine, t: Machine, x: int)
    requires MemoryOk(a, stacks, s, temps, m) && t.io == m.io
    requires forall y :: y != x ==> Peek(t, y) == Peek(m, y)
    requires Peek(t, x) == Peek(m, x) || forall p :: Placed(stacks, p) ==> AddressOf(a, stacks, p) != x
    ensures MemoryOk(a, stacks, s, temps, t)
  {
  }

  /** Once the result is in the home of the next index, the instruction is done. */
  lemma DefineMatches(a: Act, em: Em, live: Live, id: nat, v: Word, c: Config, m: Machine)
    requires TablesOk(a, em, live) && Matches(a, em, live, c, m) && em.out < a.fn.valCount
    requires ValueAt(a, em.out, m) == v
    ensures TablesOk(a, Define(em, id), live[id := em.out])
    ensures Matches(a, Define(em, id), live[id := em.out], c.(pc := c.pc + 1, regs := c.regs[id := v]), m)
  {
  }

  lemma LoadSim(a: Act, em: Em, live: Live, id: nat, src: Slot, k: Ctx, c: Config, m: Machine) returns (t: Machine)
    requires TablesOk(a, em, live) && Matches(a, em, live, c, m) && em.out < a.fn.valCount
    requires Execute(k, Load(id, src), c).At?
    ensures var (ls, em1) := InstLines(a.fn, em, Load(id, src));
            var live1 := live[id := em.out];
            && Runs(a.env, ls, m, t) && TablesOk(a, em1, live1)
            && Matches(a, em1, live1, Execute(k, Load(id, src), c), t)
  {
    assert Placed(em.stacks, src);
    hide Runs, Agree, MemoryOk, StacksOk, ValuesOk, GlobalsPlaced;
    var v := SlotValue(c.s, c.temps, src).value;
    var p := Locate(a.fn, em, 0, src);
    var t1 := LocateWorks(a, em, 0, src, m);
    SameMemory(a, em, live, c, m, t1);
    assert Peek(t1, AddressOf(a, em.stacks, src)) == Peek(m, AddressOf(a, em.stacks, src)) == v;
    var l := Lw(Dest(a.fn, em), p.off, p.base);
    t := ResultWorks(a, em, l, t1, v);
    RunsThen(a.env, p.lines, Codegen.Result(a.fn, em, l), m, t1, t);
    ResultElsewhere(a, em, live, c, t1, t);
    DefineMatches(a, p.em, live, id, v, c, t);
  }

  lemma BinarySim(a: Act, em: Em, live: Live, i: Inst, k: Ctx, c: Config, m: Machine) returns (t: Machine)
    requires TablesOk(a, em, live) && Matches(a, em, live, c, m) && em.out < a.fn.valCount
    requires i.Binary? && Usable(live, i.l) && Usable(live, i.r)
    requires Execute(k, i, c).At?
    ensures var (ls, em1) := InstLines(a.fn, em, i);
            var live1 := live[i.id := em.out];
            Runs(a.env, ls, m, t) && TablesOk(a, em1, live1) && Matches(a, em1, live1, Execute(k, i, c), t)
  {
    hide Runs, Agree, MemoryOk, StacksOk, GlobalsPlaced;
    var o := Fetch(a.fn, em, 0, i.l);
    var p := Fetch(a.fn, o.em, 1, i.r);
    var t1 := FetchWorks(a, em, live, 0, i.l, k, c.regs, m);
    SameMemory(a, em, live, c, m, t1);
    var t2 := FetchWorks(a, o.em, live, 1, i.r, k, c.regs, t1);
    SameMemory(a, em, live, c, t1, t2);
    StaysPut(a, o.em.reg, o.reg);
    var x, y := Koopa.Value(k, i.l, c.regs).value, Koopa.Value(k, i.r, c.regs).value;
    t := BinaryWorks(a, em, i.op, o.reg, p.reg, t2, x, y);
    RunsThen(a.env, o.lines, p.lines, m, t1, t2);
    RunsThen(a.env, o.lines + p.lines, BinaryLines(a.fn, em, i.op, o.reg, p.reg), m, t2, t);
    ResultElsewhere(a, em, live, c, t2, t);
    DefineMatches(a, p.em, live, i.id, Apply(i.op, x, y), c, t);
  }

  /** A value operand the code can fetch here: an immediate, or a value still live. */
  predicate Usable(live: Live, op: Operand)
  {
    !op.ArgRef? && (op.Res? ==> op.id in live)
  }

  /** The first operand's register survives fetching the second. */
  lemma StaysPut(a: Act, n: nat, r: Reg)
    requires Settled(a.fn, n, 0, r)
    ensures !SpareReg(a.fn, n, 1, r)
  {
    if SpareReg(a.fn, n, 1, r) {
      if r != T(T_MAX + 1) {
        var j: nat :| n <= j < a.fn.Limit() && r == a.fn.RegOf(j);
        RegsApart(a.fn, j, j);
        if r != T(T_MAX) && r != Zero {
          var i: nat :| i < n && i < a.fn.Limit() && r == a.fn.RegOf(i);
          RegsApart(a.fn, i, j);
        }
      } else {
        var i: nat :| i < n && i < a.fn.Limit() && r == a.fn.RegOf(i);
        RegsApart(a.fn, i, i);
      }
    }
  }

  lemma StoreSim(a: Act, em: Em, live: Live, i: Inst, k: Ctx, c: Config, m: Machine) returns (t: Machine)
    requires TablesOk(a, em, live) && Matches(a, em, live, c, m)
    requires i.Store? && Usable(live, i.value) && Placed(em.stacks, i.dest)
    requires Execute(k, i, c).At?
    ensures var (ls, em1) := InstLines(a.fn, em, i);
            Runs(a.env, ls, m, t) && TablesOk(a, em1, live) && Matches(a, em1, live, Execute(k, i, c), t)
  {
    hide Runs, Agree, MemoryOk, StacksOk, GlobalsPlaced;
    var o := Fetch(a.fn, em, 0, i.value);
    var p := Locate(a.fn, o.em, 1, i.dest);
    var t1 := FetchWorks(a, em, live, 0, i.value, k, c.regs, m);
    SameMemory(a, em, live, c, m, t1);
    var t2 := LocateWorks(a, o.em, 1, i.dest, t1);
    SameMemory(a, em, live, c, t1, t2);
    StaysPut(a, o.em.reg, o.reg);
    var v := Koopa.Value(k, i.value, c.regs).value;
    var l := Sw(o.reg, p.off, p.base);
    t := Poke(t2, AddressOf(a, em.stacks, i.dest), v);
    RunsOne(a.env, l, t2);
    RunsThen(a.env, o.lines, p.lines, m, t1, t2);
    RunsThen(a.env, o.lines + p.lines, [l], m, t2, t);
    WriteMatches(a, em, live, i.dest, v, c, t2);
    assert TablesOk(a, p.em, live);
  }

  /** Writing a slot writes the variable, and nothing else the machine has to keep. */
  lemma WriteMatches(a: Act, em: Em, live: Live, s: Slot, v: Word, c: Config, m: Machine)
    requires TablesOk(a, em, live) && Matches(a, em, live, c, m) && Placed(em.stacks, s)
    ensures c.At? && Matches(a, em, live, WriteSlot(c.(pc := c.pc + 1), s, v), Poke(m, AddressOf(a, em.stacks, s), v))
  {
    var x := AddressOf(a, em.stacks, s);
    var t := Poke(m, x, v);
    WriteMemory(a, em.stacks, s, v, c, m);
    forall id | id in live ensures ValueAt(a, live[id], t) == c.regs[id] {
      SlotElsewhere(a, em.stacks, s, live[id]);
    }
    hide MemoryOk, StacksOk, GlobalsPlaced, WriteSlot, AddressOf;
    assert FrameOk(a, t) by {
      SlotOffFrame(a, em.stacks, s);
    }
  }

  lemma WriteMemory(a: Act, stacks: Stacks, s: Slot, v: Word, c: Config, m: Machine)
    requires StacksOk(a, stacks) && GlobalsPlaced(a) && a.Above() <= a.top && Placed(stacks, s)
    requires c.At? && MemoryOk(a, stacks, c.s, c.temps, m)
    ensures var d := WriteSlot(c, s, v);
            MemoryOk(a, stacks, d.s, d.temps, Poke(m, AddressOf(a, stacks, s), v))
  {
    var t := Poke(m, AddressOf(a, stacks, s), v);
    forall p | Placed(stacks, p) && p != s
      ensures Peek(t, AddressOf(a, stacks, p)) == Peek(m, AddressOf(a, stacks, p))
    {
      SlotsApart(a, stacks, s, p);
    }
    hide StacksOk, GlobalsPlaced, AddressOf;
    var d := WriteSlot(c, s, v);
    forall p ensures SlotValue(d.s, d.temps, p) == if p == s then Some(v) else SlotValue(c.s, c.temps, p) {
    }
  }

  lemma SlotOffFrame(a: Act, stacks: Stacks, s: Slot)
    requires StacksOk(a, stacks) && GlobalsPlaced(a) && Placed(stacks, s) && a.Above() <= a.top
    ensures AddressOf(a, stacks, s) != a.base + a.fn.Size() - 4
    ensures !(a.Above() <= AddressOf(a, stacks, s) < a.top)
  {
    FrameLayout(a.fn);
  }

  /** An alloc prints nothing. */
  lemma AllocSim(a: Act, em: Em, live: Live, s: Slot, k: Ctx, c: Config, m: Machine)
    requires TablesOk(a, em, live) && Matches(a, em, live, c, m)
    ensures Execute(k, Alloc(s), c).At? && Matches(a, em, live, Execute(k, Alloc(s), c), m)
  {
    hide FrameOk, StacksOk, GlobalsPlaced, ValuesOk;
    var d := ClearSlot(c, s);
    assert forall p :: SlotValue(d.s, d.temps, p).Some? ==> SlotValue(d.s, d.temps, p) == SlotValue(c.s, c.temps, p);
  }
}
