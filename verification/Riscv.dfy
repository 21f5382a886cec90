/**
 * The assembly src/codegen.c prints, as a sequence of lines, and a small RV32IM machine that runs it.
 * Memory is read and written in aligned 4-byte words.
 */
module Riscv {
  import opened Words
  import opened Source

  datatype Reg = Zero | Ra | Sp | T(n: nat) | A(n: nat)

  datatype Label = FuncLabel(f: nat) | BlockLabel(f: nat, b: nat)

  datatype AluOp = ADD | SUB | MUL | DIV | REM | XOR | SLT | SGT

  /** One printed line. Unmodelled stands for code whose shape this model does not give. */
  datatype Line =
    | Mark(l: Label)
    | Li(rd: Reg, imm: Word)
    | La(rd: Reg, g: nat)
    | Mv(rd: Reg, rs: Reg)
    | Lw(rd: Reg, off: int, base: Reg)
    | Sw(rs: Reg, off: int, base: Reg)
    | Alu(op: AluOp, rd: Reg, rs1: Reg, rs2: Reg)
    | Seqz(rd: Reg, rs: Reg)
    | Snez(rd: Reg, rs: Reg)
    | AddSp(delta: int)
    | Bnez(rs: Reg, l: Label)
    | J(l: Label)
    | CallTo(f: nat)
    | Ret
    | Unmodelled

  /** Registers and memory words hold integers: words, and addresses, which are not bounded. */
  datatype Machine = Machine(pc: int, regs: map<Reg, int>, mem: map<int, int>, io: seq<Event>, trapped: bool)

  function Get(m: Machine, r: Reg): int
  {
    if r != Zero && r in m.regs then m.regs[r] else 0
  }

  function Peek(m: Machine, a: int): int
  {
    if a in m.mem then m.mem[a] else 0
  }

  function Set(m: Machine, r: Reg, v: int): Machine
  {
    if r == Zero then m else m.(regs := m.regs[r := v])
  }

  function Poke(m: Machine, a: int, v: int): Machine
  {
    m.(mem := m.mem[a := v])
  }

  function Alus(op: AluOp, a: int, b: int): Word
  {
    var x, y := Wrap(a), Wrap(b);
    match op
    case ADD => Wrap(x + y)
    case SUB => Wrap(x - y)
    case MUL => Wrap(x * y)
    case DIV => Words.Div(x, y)
    case REM => Words.Rem(x, y)
    case XOR => Words.Xor(x, y)
    case SLT => Bool(x < y)
    case SGT => Bool(x > y)
  }

  predicate Straight(l: Line)
  {
    !l.Bnez? && !l.J? && !l.CallTo? && !l.Ret?
  }

  function Trap(m: Machine): Machine { m.(trapped := true) }

  /** The run-time environment: the addresses of the global variables, the run-time library, and what a
      library call leaves in the registers and the memory it may overwrite. */
  datatype Env = Env(address: nat -> int, lib: Library, junk: Machine -> Machine)

  /** Whether a word may be read or written at an address. */
  predicate Aligned(a: int) { a % 4 == 0 }

  lemma AlignedSum(a: int, b: int)
    requires Aligned(a) && Aligned(b)
    ensures Aligned(a + b)
  {
  }

  function Address(m: Machine, off: int, base: Reg): int { Get(m, base) + off }

  /** The effect of a line that passes control to the next one. */
  function Effect(env: Env, l: Line, m: Machine): Machine
    requires Straight(l)
  {
    match l
    case Mark(_) => m
    case Li(rd, n) => Set(m, rd, n)
    case La(rd, g) => Set(m, rd, env.address(g))
    case Mv(rd, rs) => Set(m, rd, Get(m, rs))
    case Lw(rd, off, base) =>
      var a := Address(m, off, base);
      if Aligned(a) then Set(m, rd, Peek(m, a)) else Trap(m)
    case Sw(rs, off, base) =>
      var a := Address(m, off, base);
      if Aligned(a) then Poke(m, a, Get(m, rs)) else Trap(m)
    case Alu(op, rd, rs1, rs2) => Set(m, rd, Alus(op, Get(m, rs1), Get(m, rs2)))
    case Seqz(rd, rs) => Set(m, rd, Bool(Get(m, rs) == 0))
    case Snez(rd, rs) => Set(m, rd, Bool(Get(m, rs) != 0))
    case AddSp(n) => Set(m, Sp, Get(m, Sp) + n)
    case Unmodelled => Trap(m)
  }

  /** The line a label is on, or the end of the code if it is nowhere. */
  function Find(code: seq<Line>, l: Label): (p: nat)
    ensures p <= |code|
    ensures p < |code| ==> code[p] == Mark(l)
    ensures forall i :: 0 <= i < p ==> code[i] != Mark(l)
  {
    if code == [] || code[0] == Mark(l) then 0 else 1 + Find(code[1..], l)
  }

  /** Argument i by the integer calling convention of the RISC-V ELF psABI, section 2.1, as the callee finds it. */
  function ArgAt(m: Machine, i: nat): int
  {
    if i < 8 then Get(m, A(i)) else Peek(m, Get(m, Sp) + 4 * (i - 8))
  }

  function ArgsAt(m: Machine, n: nat): seq<Word> { seq(n, i requires 0 <= i => Wrap(ArgAt(m, i))) }

  /** A library call: only sp and the memory from sp up survive it. */
  function LibraryCall(env: Env, f: nat, m: Machine): Machine
  {
    var args := ArgsAt(m, env.lib.arity(f));
    var junk := env.junk(m);
    Machine(
      m.pc + 1,
      junk.regs[Sp := Get(m, Sp)][A(0) := env.lib.result(m.io, f, args)],
      (map a | a in junk.mem && a < Get(m, Sp) :: junk.mem[a]) + (map a | a in m.mem && a >= Get(m, Sp) :: m.mem[a]),
      m.io + [Event(f, args)],
      false)
  }

  function MStep(code: seq<Line>, env: Env, m: Machine): Machine
  {
    if m.trapped || !(0 <= m.pc < |code|) then m else
    var l := code[m.pc];
    if Straight(l) then var n := Effect(env, l, m); n.(pc := m.pc + 1) else
    match l
    case Bnez(rs, t) => m.(pc := if Get(m, rs) != 0 then Find(code, t) else m.pc + 1)
    case J(t) => m.(pc := Find(code, t))
    case CallTo(f) =>
      var p := Find(code, FuncLabel(f));
      if p < |code| then Set(m, Ra, m.pc + 1).(pc := p) else LibraryCall(env, f, m)
    case Ret => m.(pc := Get(m, Ra))
  }

  function MSteps(code: seq<Line>, env: Env, m: Machine, n: nat): Machine
    decreases n
  {
    if n == 0 then m else MSteps(code, env, MStep(code, env, m), n - 1)
  }

  ghost predicate MReaches(code: seq<Line>, env: Env, m: Machine, t: Machine)
  {
    exists n: nat :: MSteps(code, env, m, n) == t
  }

  lemma {:induction false} MStepsCompose(code: seq<Line>, env: Env, m: Machine, i: nat, j: nat)
    ensures MSteps(code, env, m, i + j) == MSteps(code, env, MSteps(code, env, m, i), j)
    decreases i
  {
    if i > 0 {
      MStepsCompose(code, env, MStep(code, env, m), i - 1, j);
    }
  }

  lemma MThen(code: seq<Line>, env: Env, m: Machine, t: Machine, u: Machine)
    requires MReaches(code, env, m, t) && MReaches(code, env, t, u)
    ensures MReaches(code, env, m, u)
  {
    var i: nat :| MSteps(code, env, m, i) == t;
    var j: nat :| MSteps(code, env, t, j) == u;
    MStepsCompose(code, env, m, i, j);
  }

  lemma MStays(code: seq<Line>, env: Env, m: Machine)
    ensures MReaches(code, env, m, m)
  {
    assert MSteps(code, env, m, 0) == m;
  }

  lemma MStepReaches(code: seq<Line>, env: Env, m: Machine)
    ensures MReaches(code, env, m, MStep(code, env, m))
  {
    assert MSteps(code, env, m, 1) == MSteps(code, env, MStep(code, env, m), 0);
  }

  // ----- running on -----

  /** The machine has a next step. */
  predicate Going(code: seq<Line>, m: Machine) { 0 <= m.pc < |code| && !m.trapped }

  /** The machine is still going after n steps. */
  predicate MLasts(code: seq<Line>, env: Env, m: Machine, n: nat) { Going(code, MSteps(code, env, m, n)) }

  /** It takes at least one step to get from m to t. */
  ghost predicate MGetsTo(code: seq<Line>, env: Env, m: Machine, t: Machine)
  {
    exists n: nat :: n > 0 && MSteps(code, env, m, n) == t
  }

  lemma {:induction false} StoppedStays(code: seq<Line>, env: Env, m: Machine, n: nat)
    requires !Going(code, m)
    ensures MSteps(code, env, m, n) == m
  {
    if n > 0 {
      StoppedStays(code, env, m, n - 1);
    }
  }

  lemma MLastsLess(code: seq<Line>, env: Env, m: Machine, i: nat, n: nat)
    requires MLasts(code, env, m, n) && i <= n
    ensures MLasts(code, env, m, i)
  {
    MStepsCompose(code, env, m, i, n - i);
    if !Going(code, MSteps(code, env, m, i)) {
      StoppedStays(code, env, MSteps(code, env, m, i), n - i);
    }
  }

  lemma MThenLasts(code: seq<Line>, env: Env, m: Machine, t: Machine, n: nat)
    requires MReaches(code, env, m, t) && MLasts(code, env, t, n)
    ensures MLasts(code, env, m, n)
  {
    var i: nat :| MSteps(code, env, m, i) == t;
    MStepsCompose(code, env, m, i, n);
    MLastsLess(code, env, m, n, i + n);
  }

  lemma MGetsToLasts(code: seq<Line>, env: Env, m: Machine, t: Machine, n: nat)
    requires MGetsTo(code, env, m, t) && n > 0 && MLasts(code, env, t, n - 1)
    ensures MLasts(code, env, m, n)
  {
    var i: nat :| i > 0 && MSteps(code, env, m, i) == t;
    MStepsCompose(code, env, m, i, n - 1);
    MLastsLess(code, env, m, n, i + (n - 1));
  }

  lemma MovesOn(code: seq<Line>, env: Env, m: Machine, t: Machine)
    requires MReaches(code, env, m, t) && m != t
    ensures MGetsTo(code, env, m, t)
  {
    var i: nat :| MSteps(code, env, m, i) == t;
    assert MSteps(code, env, m, 0) == m;
    assert i > 0;
  }

  lemma MGetsToThen(code: seq<Line>, env: Env, m: Machine, t: Machine, u: Machine)
    requires MGetsTo(code, env, m, t) && MReaches(code, env, t, u)
    ensures MGetsTo(code, env, m, u) && MReaches(code, env, m, u)
  {
    var i: nat :| i > 0 && MSteps(code, env, m, i) == t;
    var j: nat :| MSteps(code, env, t, j) == u;
    MStepsCompose(code, env, m, i, j);
    assert i + j > 0;
  }

  // ----- straight-line code -----

  predicate AllStraight(ls: seq<Line>) { forall i :: 0 <= i < |ls| ==> Straight(ls[i]) }

  /** The effect of a piece of straight-line code, wherever it stands. */
  function Effects(env: Env, ls: seq<Line>, m: Machine): Machine
    requires AllStraight(ls)
  {
    if ls == [] then m else Effects(env, ls[1..], Effect(env, ls[0], m))
  }

  predicate CodeAt(code: seq<Line>, p: int, ls: seq<Line>)
  {
    0 <= p && p + |ls| <= |code| && code[p..p + |ls|] == ls
  }

  lemma {:induction false} EffectsCompose(env: Env, ls: seq<Line>, ks: seq<Line>, m: Machine)
    requires AllStraight(ls) && AllStraight(ks)
    ensures AllStraight(ls + ks)
    ensures Effects(env, ls + ks, m) == Effects(env, ks, Effects(env, ls, m))
  {
    if ls == [] {
      assert ls + ks == ks;
    } else {
      assert (ls + ks)[1..] == ls[1..] + ks;
      EffectsCompose(env, ls[1..], ks, Effect(env, ls[0], m));
    }
  }

  /** Running the straight-line code ls from m gives t. */
  ghost predicate Runs(env: Env, ls: seq<Line>, m: Machine, t: Machine)
  {
    AllStraight(ls) && Effects(env, ls, m) == t
  }

  lemma RunsNone(env: Env, m: Machine)
    ensures Runs(env, [], m, m)
  {
  }

  lemma RunsOne(env: Env, l: Line, m: Machine)
    requires Straight(l)
    ensures Runs(env, [l], m, Effect(env, l, m))
  {
    assert [l][1..] == [];
  }

  lemma RunsThen(env: Env, ls: seq<Line>, ks: seq<Line>, m: Machine, t: Machine, u: Machine)
    requires Runs(env, ls, m, t) && Runs(env, ks, t, u)
    ensures Runs(env, ls + ks, m, u)
  {
    EffectsCompose(env, ls, ks, m);
  }

  /** Straight-line code that does not trap runs to its end. */
  lemma RunsReaches(code: seq<Line>, env: Env, ls: seq<Line>, m: Machine, t: Machine)
    requires CodeAt(code, m.pc, ls) && Runs(env, ls, m, t) && !t.trapped
    ensures MReaches(code, env, m, t.(pc := m.pc + |ls|))
  {
    RunStraight(code, env, ls, m);
  }

  lemma {:induction false} RunStraight(code: seq<Line>, env: Env, ls: seq<Line>, m: Machine)
    requires CodeAt(code, m.pc, ls) && AllStraight(ls) && !Effects(env, ls, m).trapped
    ensures MReaches(code, env, m, Effects(env, ls, m).(pc := m.pc + |ls|))
  {
    if ls == [] {
      MStays(code, env, m);
    } else {
      var t := MStep(code, env, m);
      assert code[m.pc] == code[m.pc..m.pc + |ls|][0] == ls[0];
      TrapStays(env, ls, m);
      var n := Effect(env, ls[0], m);
      PcIrrelevant(env, ls[1..], n, m.pc + 1);
      assert code[t.pc..t.pc + |ls| - 1] == code[m.pc..m.pc + |ls|][1..];
      RunStraight(code, env, ls[1..], t);
      MStepReaches(code, env, m);
      MThen(code, env, m, t, Effects(env, ls, m).(pc := m.pc + |ls|));
    }
  }

  lemma {:induction false} TrapStays(env: Env, ls: seq<Line>, m: Machine)
    requires AllStraight(ls)
    ensures m.trapped ==> Effects(env, ls, m).trapped
  {
    if ls != [] {
      TrapStays(env, ls[1..], Effect(env, ls[0], m));
    }
  }

  lemma EffectPc(env: Env, l: Line, m: Machine, p: int)
    requires Straight(l)
    ensures Effect(env, l, m.(pc := p)) == Effect(env, l, m).(pc := p)
  {
    assert forall r :: Get(m.(pc := p), r) == Get(m, r);
  }

  lemma {:induction false} PcIrrelevant(env: Env, ls: seq<Line>, m: Machine, p: int)
    requires AllStraight(ls)
    ensures Effects(env, ls, m.(pc := p)) == Effects(env, ls, m).(pc := p)
  {
    hide Effect;
    if ls != [] {
      EffectPc(env, ls[0], m, p);
      PcIrrelevant(env, ls[1..], Effect(env, ls[0], m), p);
    }
  }
}
