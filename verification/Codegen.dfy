/**
 * Code generation of src/codegen.c as functions: what each function, block and instruction prints,
 * given the counters the visitor keeps.
 */
module Codegen {
  import opened Source
  import opened Koopa
  import opened Riscv

  // t5 and t6 are reserved for spilling
  const T_MAX: nat := 5
  const A_MAX: nat := 8
  const R_MAX: nat := T_MAX + A_MAX

  function Min(a: nat, b: nat): nat { if a < b then a else b }

  function Max(a: nat, b: nat): nat { if a > b then a else b }

  // ----- counting -----

  /** Whether an instruction has type i32. */
  predicate IntTyped(i: Inst) { i.Load? || i.Binary? || (i.Call? && !i.f.isVoid) }

  function CountVals(insts: seq<Inst>): nat
  {
    if insts == [] then 0
    else CountVals(insts[..|insts| - 1]) + (if IntTyped(insts[|insts| - 1]) then 1 else 0)
  }

  function CountArgs(insts: seq<Inst>): nat
  {
    if insts == [] then 0
    else
      var last := insts[|insts| - 1];
      CountArgs(insts[..|insts| - 1]) + (if last.Call? then |last.args| else 0)
  }

  /** The largest count over the blocks in bbs. */
  function MaxOver(count: seq<Inst> -> nat, g: Graph, bbs: seq<nat>): nat
  {
    if bbs == [] then 0
    else Max(MaxOver(count, g, bbs[..|bbs| - 1]), count(BlockAt(g, bbs[|bbs| - 1])))
  }

  function BlockAt(g: Graph, b: nat): seq<Inst> { if b < |g| then g[b] else [] }

  /** The instructions of the function in printing order. */
  function AllInsts(g: Graph, bbs: seq<nat>): seq<Inst>
  {
    if bbs == [] then [] else AllInsts(g, bbs[..|bbs| - 1]) + BlockAt(g, bbs[|bbs| - 1])
  }

  /** The function's context m_fn, apart from the block index. */
  datatype Fn = Fn(f: nat, valCount: nat, argCount: nat, varCount: nat)
  {
    function Saved(): nat { Min(valCount, R_MAX) }

    function SpillVals(): nat { Max(valCount, R_MAX) - R_MAX }

    function RegArgs(): nat { Min(argCount, A_MAX) }

    function SpillArgs(): nat { Max(argCount, A_MAX) - A_MAX }

    /** The first index whose value does not live in a register. */
    function Limit(): nat { R_MAX - RegArgs() }

    /** The frame in words: spilled arguments, saved registers, locals, spilled values, return address. */
    function Words(): nat { SpillArgs() + Saved() + varCount + SpillVals() + 4 }

    function Size(): nat { (4 * Words() + 15) / 16 * 16 }

    function VarSlot(k: nat): int { 4 * (Saved() + SpillArgs() + k) }

    /** m_out_sp, reg_sp and variant_sp. */
    function SpillSlot(index: nat): int { 4 * (index - R_MAX + varCount + Saved() + SpillArgs()) }

    /** The register of an index below Limit. */
    function RegOf(index: nat): Reg
      requires index < Limit()
    {
      if index < T_MAX then T(index) else A(index - T_MAX + argCount)
    }
  }

  type Stacks = map<Slot, int>

  /** What count_vars has done so far: m_fn.var_count, m_fn.par_spill and the slots registered. */
  datatype Vars = Vars(varCount: nat, parSpill: nat, stacks: Stacks)

  function CountVar(fn: Fn, params: nat, i: Inst, v: Vars): Vars
  {
    if !i.Alloc? then v
    else if v.varCount + v.parSpill < params && v.varCount + v.parSpill >= A_MAX then v.(parSpill := v.parSpill + 1)
    else Vars(v.varCount + 1, v.parSpill, v.stacks[i.slot := fn.VarSlot(v.varCount)])
  }

  function CountVars(fn: Fn, params: nat, insts: seq<Inst>): Vars
  {
    if insts == [] then Vars(0, 0, map[])
    else CountVar(fn, params, insts[|insts| - 1], CountVars(fn, params, insts[..|insts| - 1]))
  }

  function VarsOf(f: nat, fn: Func): Vars
  {
    CountVars(Fn(f, MaxOver(CountVals, fn.blocks, fn.bbs), MaxOver(CountArgs, fn.blocks, fn.bbs), 0),
              fn.params, AllInsts(fn.blocks, fn.bbs))
  }

  function FnOf(f: nat, fn: Func): Fn
  {
    Fn(f, MaxOver(CountVals, fn.blocks, fn.bbs), MaxOver(CountArgs, fn.blocks, fn.bbs), VarsOf(f, fn).varCount)
  }

  // ----- operands -----

  /** The tables and the block's counters: m_ht_stacks, m_bb, and m_ht_outs for this block. */
  datatype Em = Em(stacks: Stacks, reg: nat, out: nat, outs: map<nat, nat>)

  /** The next scratch register, or the spare register of operand position k. */
  function Scratch(fn: Fn, em: Em, k: nat): Reg
  {
    if em.reg < fn.Limit() then fn.RegOf(em.reg) else T(T_MAX + k)
  }

  datatype Opnd = Opnd(lines: seq<Line>, reg: Reg, em: Em)

  /** A value operand in position k: the lines that fetch it and the register it is in. */
  function Fetch(fn: Fn, em: Em, k: nat, op: Operand): Opnd
  {
    match op
    case Imm(n) =>
      if n == 0 then Opnd([], Zero, em)
      else Opnd([Li(Scratch(fn, em, k), n)], Scratch(fn, em, k), em.(reg := em.reg + 1))
    case Res(id) =>
      if id !in em.outs then Opnd([Unmodelled], Zero, em)
      else if em.outs[id] < fn.Limit() then Opnd([], fn.RegOf(em.outs[id]), em)
      else Opnd([Lw(T(T_MAX + k), fn.SpillSlot(em.outs[id]), Sp)], T(T_MAX + k), em)
    case ArgRef(_) => Opnd([Unmodelled], Zero, em)
  }

  /** An address operand: what to print before it, and its offset and base. */
  datatype Place = Place(lines: seq<Line>, off: int, base: Reg, em: Em)

  function Locate(fn: Fn, em: Em, k: nat, slot: Slot): Place
  {
    if slot in em.stacks then Place([], em.stacks[slot], Sp, em)
    else
      match slot
      case Of(Global(g)) => Place([La(Scratch(fn, em, k), g)], 0, Scratch(fn, em, k), em.(reg := em.reg + 1))
      case _ => Place([Unmodelled], 0, Sp, em)
  }

  /** The register the current instruction writes. */
  function Dest(fn: Fn, em: Em): Reg
  {
    if em.out < fn.Limit() then fn.RegOf(em.out) else T(T_MAX)
  }

  /** A line that writes Dest, followed by the store of a spilled result. */
  function Result(fn: Fn, em: Em, l: Line): seq<Line>
  {
    if em.out < fn.Limit() then [l] else [l, Sw(T(T_MAX), fn.SpillSlot(em.out), Sp)]
  }

  // ----- instructions -----

  function BinaryLines(fn: Fn, em: Em, op: BinOp, a: Reg, b: Reg): seq<Line>
  {
    var d := Dest(fn, em);
    match op
    case Ne => Result(fn, em, Alu(XOR, d, a, b)) + Result(fn, em, Snez(d, d))
    case Eq => Result(fn, em, Alu(XOR, d, a, b)) + Result(fn, em, Seqz(d, d))
    case Gt => Result(fn, em, Alu(SGT, d, a, b))
    case Lt => Result(fn, em, Alu(SLT, d, a, b))
    case Ge => Result(fn, em, Alu(SLT, d, a, b)) + Result(fn, em, Seqz(d, d))
    case Le => Result(fn, em, Alu(SGT, d, a, b)) + Result(fn, em, Seqz(d, d))
    case Add => Result(fn, em, Alu(ADD, d, a, b))
    case Sub => Result(fn, em, Alu(SUB, d, a, b))
    case Mul => Result(fn, em, Alu(MUL, d, a, b))
    case Div => Result(fn, em, Alu(DIV, d, a, b))
    case Mod => Result(fn, em, Alu(REM, d, a, b))
  }

  /** The register the caller saves for index i: a(i - T_MAX), whatever arg_count is. */
  function SavedReg(i: nat): Reg { if i < T_MAX then T(i) else A(i - T_MAX) }

  function SaveSlot(fn: Fn, i: nat): int { 4 * (i + fn.SpillArgs()) }

  function SaveLines(fn: Fn, n: nat): seq<Line>
  {
    if n == 0 then [] else SaveLines(fn, n - 1) + [Sw(SavedReg(n - 1), SaveSlot(fn, n - 1), Sp)]
  }

  function RestoreLines(fn: Fn, n: nat): seq<Line>
  {
    if n == 0 then [] else RestoreLines(fn, n - 1) + [Lw(SavedReg(n - 1), SaveSlot(fn, n - 1), Sp)]
  }

  /** The first n arguments, moved to a0..a7 and then to the bottom of the frame. */
  function ArgLines(fn: Fn, em: Em, args: seq<Operand>): (seq<Line>, Em)
  {
    if args == [] then ([], em)
    else
      var n := |args| - 1;
      var (ls, em1) := ArgLines(fn, em, args[..n]);
      var o := Fetch(fn, em1, 0, args[n]);
      (ls + o.lines + [if n < A_MAX then Mv(A(n), o.reg) else Sw(o.reg, 4 * (n - A_MAX), Sp)], o.em)
  }

  function CallLines(fn: Fn, em: Em, f: Callee, args: seq<Operand>): (seq<Line>, Em)
  {
    var n := Min(em.out, R_MAX);
    var (ls, em1) := ArgLines(fn, em, args);
    var call := SaveLines(fn, n) + ls + [CallTo(f.f)];
    (if f.isVoid then call else call + Result(fn, em, Mv(Dest(fn, em), A(0))) + RestoreLines(fn, n), em1)
  }

  function Epilogue(fn: Fn): seq<Line>
  {
    [Lw(Ra, fn.Size() - 4, Sp), AddSp(fn.Size()), Ret]
  }

  /** The i32 result of instruction id is now index em.out of the block. */
  function Define(em: Em, id: nat): Em
  {
    Em(em.stacks, em.out + 1, em.out + 1, em.outs[id := em.out])
  }

  function InstLines(fn: Fn, em: Em, i: Inst): (seq<Line>, Em)
  {
    match i
    case Alloc(_) => ([], em)
    case Load(id, src) =>
      var p := Locate(fn, em, 0, src);
      (p.lines + Result(fn, em, Lw(Dest(fn, em), p.off, p.base)), Define(p.em, id))
    case Store(ArgRef(i), dest) =>
      if i < A_MAX then ([Sw(A(i), fn.VarSlot(i), Sp)], em)
      else ([], em.(stacks := em.stacks[dest := 4 * (i - A_MAX) + fn.Size()]))
    case Store(op, dest) =>
      var o := Fetch(fn, em, 0, op);
      var p := Locate(fn, o.em, 1, dest);
      (o.lines + p.lines + [Sw(o.reg, p.off, p.base)], p.em)
    case Binary(id, op, l, r) =>
      var o := Fetch(fn, em, 0, l);
      var p := Fetch(fn, o.em, 1, r);
      (o.lines + p.lines + BinaryLines(fn, em, op, o.reg, p.reg), Define(p.em, id))
    case Call(id, f, args) =>
      var (ls, em1) := CallLines(fn, em, f, args);
      (ls, if f.isVoid then em1.(outs := em1.outs[id := em.out]) else Define(em1, id))
    case Branch(cond, t, f) =>
      var o := Fetch(fn, em, 0, cond);
      (o.lines + [Bnez(o.reg, BlockLabel(fn.f, t)), J(BlockLabel(fn.f, f))], o.em)
    case Jump(t) => ([J(BlockLabel(fn.f, t))], em)
    case Return(None) => (Epilogue(fn), em)
    case Return(Some(op)) =>
      var o := Fetch(fn, em, 0, op);
      (o.lines + [Mv(A(0), o.reg)] + Epilogue(fn), o.em)
  }

  // ----- blocks, functions, programs -----

  /** The lines of a block from the state em on. */
  function InstsLines(fn: Fn, em: Em, insts: seq<Inst>): (seq<Line>, Em)
    decreases |insts|
  {
    if insts == [] then ([], em)
    else
      var (ls, em1) := InstLines(fn, em, insts[0]);
      var (rest, em2) := InstsLines(fn, em1, insts[1..]);
      (ls + rest, em2)
  }

  function Fresh(stacks: Stacks): Em { Em(stacks, 0, 0, map[]) }

  function BlockLines(fn: Fn, stacks: Stacks, g: Graph, b: nat): (seq<Line>, Stacks)
  {
    var (ls, em) := InstsLines(fn, Fresh(stacks), BlockAt(g, b));
    ([Mark(BlockLabel(fn.f, b))] + ls, em.stacks)
  }

  function BlocksLines(fn: Fn, stacks: Stacks, g: Graph, bbs: seq<nat>): (seq<Line>, Stacks)
    decreases |bbs|
  {
    if bbs == [] then ([], stacks)
    else
      var (ls, stacks1) := BlockLines(fn, stacks, g, bbs[0]);
      var (rest, stacks2) := BlocksLines(fn, stacks1, g, bbs[1..]);
      (ls + rest, stacks2)
  }

  function Prologue(fn: Fn): seq<Line>
  {
    [AddSp(0 - fn.Size()), Sw(Ra, fn.Size() - 4, Sp)]
  }

  function FuncLines(f: nat, fn: Func): seq<Line>
  {
    var c := FnOf(f, fn);
    [Mark(FuncLabel(f))] + Prologue(c) + BlocksLines(c, VarsOf(f, fn).stacks, fn.blocks, fn.bbs).0
  }

  /** A program: its functions in printing order. */
  function ProgramLines(fs: seq<(nat, Func)>): seq<Line>
  {
    if fs == [] then [] else FuncLines(fs[0].0, fs[0].1) + ProgramLines(fs[1..])
  }
}
