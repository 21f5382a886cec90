/**
 * Fetching operands and writing results: straight-line code against the values of a block.
 */
module CodegenValues {
  import opened Words
  import opened Source
  import opened Koopa
  import opened Riscv
  import opened Codegen
  import opened CodegenFrame

  /** One activation: its function and frame, and what it must hand back to its caller. */
  datatype Act = Act(
    fn: Fn,
    env: Env,
    params: nat,
    base: int,               // sp inside the function
    ra: int,                 // the return address
    top: int,                // the stack lies below, the globals above
    caller: map<int, int>    // memory when the function was entered
  )
  {
    /** Where the caller's own memory starts, above the words it passed arguments in. */
    function Above(): int { base + fn.Size() + 4 * (Max(params, A_MAX) - A_MAX) }
  }

  /** What value index i of the block holds. */
  function ValueAt(a: Act, i: nat, m: Machine): int
  {
    if i < a.fn.Limit() then Get(m, a.fn.RegOf(i)) else Peek(m, a.base + a.fn.SpillSlot(i))
  }

  /** The stack pointer, the return address and the caller's memory are where they should be. */
  ghost predicate FrameOk(a: Act, m: Machine)
  {
    && !m.trapped
    && Get(m, Sp) == a.base && a.Above() <= a.top
    && Peek(m, a.base + a.fn.Size() - 4) == a.ra
    && forall x :: a.Above() <= x < a.top ==> Peek(m, x) == (if x in a.caller then a.caller[x] else 0)
  }

  /** The values a block may still use: their indices, as far as they were defined. */
  type Live = map<nat, nat>

  predicate LiveIn(live: Live, em: Em)
  {
    em.out <= em.reg && forall id :: id in live ==> live[id] < em.out && id in em.outs && em.outs[id] == live[id]
  }

  ghost predicate ValuesOk(a: Act, live: Live, regs: map<nat, Word>, m: Machine)
  {
    forall id :: id in live ==> id in regs && ValueAt(a, live[id], m) == regs[id]
  }

  /** Same values below index n and same memory, but for the slot of index n. */
  ghost predicate Agree(a: Act, n: nat, m: Machine, t: Machine)
  {
    && t.io == m.io && t.trapped == m.trapped && Get(t, Sp) == Get(m, Sp)
    && (forall i: nat :: i < n ==> ValueAt(a, i, t) == ValueAt(a, i, m))
    && (forall x :: n < a.fn.Limit() || x != a.base + a.fn.SpillSlot(n) ==> Peek(t, x) == Peek(m, x))
  }

  predicate SpareReg(fn: Fn, n: nat, k: nat, r: Reg)
  {
    r == T(T_MAX + k) || exists i: nat :: n <= i < fn.Limit() && r == fn.RegOf(i)
  }

  /** Writing a register no value below n owns disturbs none of them. */
  lemma SetSpare(a: Act, n: nat, k: nat, m: Machine, r: Reg, v: int)
    requires SpareReg(a.fn, n, k, r)
    ensures Agree(a, n, m, Set(m, r, v)) && Get(Set(m, r, v), r) == v
    ensures Set(m, r, v).mem == m.mem
  {
    forall i: nat | i < n ensures ValueAt(a, i, Set(m, r, v)) == ValueAt(a, i, m) {
      if i < a.fn.Limit() {
        RegsApart(a.fn, i, i);
        if r != T(T_MAX + k) {
          var j: nat :| n <= j < a.fn.Limit() && r == a.fn.RegOf(j);
          RegsApart(a.fn, i, j);
        }
      }
    }
    if r != T(T_MAX + k) {
      var j: nat :| n <= j < a.fn.Limit() && r == a.fn.RegOf(j);
      RegsApart(a.fn, j, j);
    }
  }

  lemma AgreeThrough(a: Act, n: nat, m: Machine, t: Machine, u: Machine)
    requires Agree(a, n, m, t) && Agree(a, n, t, u)
    ensures Agree(a, n, m, u)
  {
  }

  /** The register an operand ends up in is not one a later operand may overwrite. */
  predicate Settled(fn: Fn, n: nat, k: nat, r: Reg)
  {
    r == Zero || r == T(T_MAX + k) || exists i: nat :: i < n && i < fn.Limit() && r == fn.RegOf(i)
  }

  /** Fetching a value operand: the register named holds the value, and only a spare register changed. */
  lemma FetchWorks(a: Act, em: Em, live: Live, k: nat, op: Operand, x: Ctx, regs: map<nat, Word>, m: Machine)
    returns (t: Machine)
    requires LiveIn(live, em) && ValuesOk(a, live, regs, m) && !m.trapped && Get(m, Sp) == a.base && Aligned(a.base)
    requires !op.ArgRef? && (op.Res? ==> op.id in live) && k < 2
    ensures var p := Fetch(a.fn, em, k, op);
            && Runs(a.env, p.lines, m, t) && p.em == em.(reg := p.em.reg) && em.reg <= p.em.reg
            && Agree(a, em.out, m, t) && t.mem == m.mem
            && Koopa.Value(x, op, regs).Some? && Koopa.Value(x, op, regs).value == Get(t, p.reg)
            && Settled(a.fn, p.em.reg, k, p.reg)
            && (forall r :: !SpareReg(a.fn, em.reg, k, r) ==> Get(t, r) == Get(m, r))
  {
    hide Runs;
    var p := Fetch(a.fn, em, k, op);
    match op {
      case Imm(n) =>
        if n != 0 {
          t := Set(m, p.reg, n);
          SetSpare(a, em.out, k, m, p.reg, n);
          RunsOne(a.env, Li(p.reg, n), m);
        } else {
          t := m;
          RunsNone(a.env, m);
        }
      case Res(id) =>
        if em.outs[id] < a.fn.Limit() {
          t := m;
          RunsNone(a.env, m);
        } else {
          t := Set(m, T(T_MAX + k), regs[id]);
          SetSpare(a, em.out, k, m, T(T_MAX + k), regs[id]);
          SpillAligned(a, em.outs[id]);
          RunsOne(a.env, Lw(T(T_MAX + k), a.fn.SpillSlot(em.outs[id]), Sp), m);
        }
    }
  }

  lemma SpillAligned(a: Act, i: nat)
    requires Aligned(a.base)
    ensures Aligned(a.base + a.fn.SpillSlot(i))
  {
  }

  // ----- results -----

  /** A line that puts v into the destination register, and the spill if there is one, define the
      instruction's index and leave the ones below it alone. */
  lemma ResultWorks(a: Act, em: Em, l: Line, m: Machine, v: Word) returns (t: Machine)
    requires Straight(l) && Effect(a.env, l, m) == Set(m, Dest(a.fn, em), v)
    requires !m.trapped && Get(m, Sp) == a.base && Aligned(a.base)
    ensures Runs(a.env, Codegen.Result(a.fn, em, l), m, t)
    ensures Agree(a, em.out, m, t) && ValueAt(a, em.out, t) == v && Get(t, Dest(a.fn, em)) == v
    ensures forall r :: r != Dest(a.fn, em) ==> Get(t, r) == Get(m, r)
    ensures em.out < a.fn.Limit() ==> t.mem == m.mem
  {
    hide Runs, Agree, Effect;
    t := Set(m, Dest(a.fn, em), v);
    SetSpare(a, em.out, 0, m, Dest(a.fn, em), v);
    RunsOne(a.env, l, m);
    if em.out >= a.fn.Limit() {
      var t1 := t;
      var k := Sw(T(T_MAX), a.fn.SpillSlot(em.out), Sp);
      t := PokeSpill(a, em.out, t1, v);
      RunsOne(a.env, k, t1);
      RunsThen(a.env, [l], [k], m, t1, t);
      assert [l] + [k] == [l, k];
      AgreeThrough(a, em.out, m, t1, t);
    }
  }

  lemma PokeSpill(a: Act, n: nat, m: Machine, v: int) returns (t: Machine)
    requires n >= a.fn.Limit() && Get(m, T(T_MAX)) == v && Get(m, Sp) == a.base && Aligned(a.base)
    ensures Effect(a.env, Sw(T(T_MAX), a.fn.SpillSlot(n), Sp), m) == t
    ensures Agree(a, n, m, t) && ValueAt(a, n, t) == v && forall r :: Get(t, r) == Get(m, r)
  {
    SpillAligned(a, n);
    t := Poke(m, a.base + a.fn.SpillSlot(n), v);
  }

  /** A result rewritten in place, as `xor` followed by `snez` or `seqz`. */
  lemma TwiceWorks(a: Act, em: Em, l: Line, k: Line, m: Machine, v: Word, w: Word) returns (t: Machine)
    requires Straight(l) && Effect(a.env, l, m) == Set(m, Dest(a.fn, em), v)
    requires (k == Snez(Dest(a.fn, em), Dest(a.fn, em)) && w == Bool(v != 0))
          || (k == Seqz(Dest(a.fn, em), Dest(a.fn, em)) && w == Bool(v == 0))
    requires !m.trapped && Get(m, Sp) == a.base && Aligned(a.base)
    ensures Runs(a.env, Codegen.Result(a.fn, em, l) + Codegen.Result(a.fn, em, k), m, t)
    ensures Agree(a, em.out, m, t) && ValueAt(a, em.out, t) == w
  {
    hide Runs;
    var t1 := ResultWorks(a, em, l, m, v);
    t := ResultWorks(a, em, k, t1, w);
    RunsThen(a.env, Codegen.Result(a.fn, em, l), Codegen.Result(a.fn, em, k), m, t1, t);
    AgreeThrough(a, em.out, m, t1, t);
  }

  /** Every operator's lines compute the operator. */
  lemma BinaryWorks(a: Act, em: Em, op: BinOp, r1: Reg, r2: Reg, m: Machine, x: Word, y: Word) returns (t: Machine)
    requires !m.trapped && Get(m, Sp) == a.base && Aligned(a.base)
    requires Get(m, r1) == x && Get(m, r2) == y
    ensures Runs(a.env, BinaryLines(a.fn, em, op, r1, r2), m, t)
    ensures Agree(a, em.out, m, t) && ValueAt(a, em.out, t) == Apply(op, x, y)
  {
    hide Runs, Agree, ValueAt;
    var d := Dest(a.fn, em);
    XorIsZero(x, y);
    match op
    case Ne => t := TwiceWorks(a, em, Alu(XOR, d, r1, r2), Snez(d, d), m, Words.Xor(x, y), Apply(op, x, y));
    case Eq => t := TwiceWorks(a, em, Alu(XOR, d, r1, r2), Seqz(d, d), m, Words.Xor(x, y), Apply(op, x, y));
    case Gt => t := ResultWorks(a, em, Alu(SGT, d, r1, r2), m, Apply(op, x, y));
    case Lt => t := ResultWorks(a, em, Alu(SLT, d, r1, r2), m, Apply(op, x, y));
    case Ge => t := TwiceWorks(a, em, Alu(SLT, d, r1, r2), Seqz(d, d), m, Bool(x < y), Apply(op, x, y));
    case Le => t := TwiceWorks(a, em, Alu(SGT, d, r1, r2), Seqz(d, d), m, Bool(x > y), Apply(op, x, y));
    case Add => t := ResultWorks(a, em, Alu(ADD, d, r1, r2), m, Apply(op, x, y));
    case Sub => t := ResultWorks(a, em, Alu(SUB, d, r1, r2), m, Apply(op, x, y));
    case Mul => t := ResultWorks(a, em, Alu(MUL, d, r1, r2), m, Apply(op, x, y));
    case Div => t := ResultWorks(a, em, Alu(DIV, d, r1, r2), m, Apply(op, x, y));
    case Mod => t := ResultWorks(a, em, Alu(REM, d, r1, r2), m, Apply(op, x, y));
  }

  // ----- memory -----

  ghost predicate GlobalsPlaced(a: Act)
  {
    && (forall g: nat :: Aligned(a.env.address(g)) && a.env.address(g) >= a.top)
    && (forall g: nat, h: nat :: g != h ==> a.env.address(g) != a.env.address(h))
  }

  /** Every slot registered is a word of its own among the locals or the stacked parameters. */
  predicate StacksOk(a: Act, stacks: Stacks)
  {
    && (forall s :: s in stacks ==>
          && !(s.Of? && s.v.Global?) && Aligned(stacks[s])
          && (Within(WordArea(stacks[s]), LocalsArea(a.fn))
              || Within(WordArea(stacks[s]), Area(a.fn.Size(), a.Above() - a.base))))
    && (forall s, t :: s in stacks && t in stacks && s != t ==> stacks[s] != stacks[t])
  }

  /** The address of a slot. */
  function AddressOf(a: Act, stacks: Stacks, s: Slot): int
  {
    if s in stacks then a.base + stacks[s]
    else if s.Of? && s.v.Global? then a.env.address(s.v.g)
    else 0
  }

  predicate Placed(stacks: Stacks, s: Slot) { s in stacks || (s.Of? && s.v.Global?) }

  /** Every initialised variable and temporary is in its slot. */
  ghost predicate MemoryOk(a: Act, stacks: Stacks, s: Source.Store, temps: Temps, m: Machine)
  {
    && m.io == s.w.io
    && forall p: Slot :: SlotValue(s, temps, p).Some? ==>
         Placed(stacks, p) && Peek(m, AddressOf(a, stacks, p)) == SlotValue(s, temps, p).value
  }

  /** An address operand names the slot's address, and only a spare register changed. */
  lemma LocateWorks(a: Act, em: Em, k: nat, s: Slot, m: Machine) returns (t: Machine)
    requires StacksOk(a, em.stacks) && GlobalsPlaced(a) && Placed(em.stacks, s)
    requires !m.trapped && Get(m, Sp) == a.base && Aligned(a.base) && k < 2 && em.out <= em.reg
    ensures var p := Locate(a.fn, em, k, s);
            && Runs(a.env, p.lines, m, t) && p.em == em.(reg := p.em.reg) && em.reg <= p.em.reg
            && Agree(a, em.out, m, t) && t.mem == m.mem
            && Address(t, p.off, p.base) == AddressOf(a, em.stacks, s) && Aligned(AddressOf(a, em.stacks, s))
            && (forall r :: !SpareReg(a.fn, em.reg, k, r) ==> Get(t, r) == Get(m, r))
  {
    hide Runs;
    if s in em.stacks {
      t := m;
      RunsNone(a.env, m);
      AlignedSum(a.base, em.stacks[s]);
    } else {
      var r := Scratch(a.fn, em, k);
      t := Set(m, r, a.env.address(s.v.g));
      SetSpare(a, em.out, k, m, r, a.env.address(s.v.g));
      RunsOne(a.env, La(r, s.v.g), m);
    }
  }

  /** Slots are words of their own. */
  lemma SlotsApart(a: Act, stacks: Stacks, s: Slot, t: Slot)
    requires StacksOk(a, stacks) && GlobalsPlaced(a) && Placed(stacks, s) && Placed(stacks, t) && s != t
    requires a.Above() <= a.top
    ensures AddressOf(a, stacks, s) != AddressOf(a, stacks, t)
  {
    FrameLayout(a.fn);
  }

  /** A slot is not where a spilled value, the return address or the caller's memory is. */
  lemma SlotElsewhere(a: Act, stacks: Stacks, s: Slot, index: nat)
    requires StacksOk(a, stacks) && GlobalsPlaced(a) && Placed(stacks, s) && a.Above() <= a.top
    requires FrameSafe(a.fn) && index < a.fn.valCount
    ensures a.fn.Limit() <= index ==> AddressOf(a, stacks, s) != a.base + a.fn.SpillSlot(index)
    ensures AddressOf(a, stacks, s) != a.base + a.fn.Size() - 4
    ensures !(a.Above() <= AddressOf(a, stacks, s) < a.top)
  {
    FrameLayout(a.fn);
    if a.fn.Limit() <= index {
      SpillsSoundExactly(a.fn);
    }
  }
}
