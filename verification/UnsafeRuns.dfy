/**
 * The two programs run: what the machine returns is not what the source returns.
 */
module UnsafeRuns {
  import opened Words
  import opened Source
  import opened Riscv
  import opened Codegen
  import opened CodegenFrame
  import opened EndToEnd
  import opened Lowering
  import opened LoweringLocal
  import opened Programs
  import opened UnsafePrograms
  import CodegenEntry
  import CodegenRun

  // ----- lines that stay in the frame -----

  /** A line that writes only these registers, and memory only within lim bytes from sp. */
  predicate Mild(l: Line, free: set<Reg>, lim: nat)
  {
    match l
    case Mark(_) => true
    case Mv(rd, _) => rd in free
    case Alu(_, rd, _, _) => rd in free
    case Lw(rd, off, base) => rd in free && base == Sp && Aligned(off)
    case Sw(_, off, base) => base == Sp && Aligned(off) && 0 <= off < lim
    case _ => false
  }

  predicate AllMild(ls: seq<Line>, free: set<Reg>, lim: nat)
  {
    forall i :: 0 <= i < |ls| ==> Mild(ls[i], free, lim)
  }

  /** What such lines leave alone. */
  ghost predicate Spared(free: set<Reg>, lim: nat, m: Machine, t: Machine)
  {
    && t.trapped == m.trapped && t.io == m.io && t.pc == m.pc
    && (forall r :: r !in free ==> Get(t, r) == Get(m, r))
    && forall x :: !(Get(m, Sp) <= x < Get(m, Sp) + lim) ==> Peek(t, x) == Peek(m, x)
  }

  lemma {:induction false} MildRuns(env: Env, ls: seq<Line>, free: set<Reg>, lim: nat, m: Machine) returns (t: Machine)
    requires AllMild(ls, free, lim) && Sp !in free && Aligned(Get(m, Sp))
    ensures Runs(env, ls, m, t) && Spared(free, lim, m, t)
  {
    hide Runs;
    if ls == [] {
      t := m;
      RunsNone(env, m);
    } else {
      var n := |ls| - 1;
      var t1 := MildRuns(env, ls[..n], free, lim, m);
      assert Mild(ls[n], free, lim);
      OneMild(env, ls[n], free, lim, t1);
      t := Effect(env, ls[n], t1);
      RunsOne(env, ls[n], t1);
      RunsThen(env, ls[..n], [ls[n]], m, t1, t);
      assert ls[..n] + [ls[n]] == ls;
    }
  }

  lemma OneMild(env: Env, l: Line, free: set<Reg>, lim: nat, m: Machine)
    requires Mild(l, free, lim) && Sp !in free && Aligned(Get(m, Sp))
    ensures Straight(l) && Spared(free, lim, m, Effect(env, l, m))
  {
    if l.Lw? || l.Sw? { AlignedSum(Get(m, Sp), l.off); }
  }

  lemma {:induction false} LoadsMild(fn: Fn, out: nat, n: nat, off: int, free: set<Reg>, lim: nat)
    requires out + n <= fn.Limit() && Aligned(off) && forall k: nat :: out <= k < out + n ==> fn.RegOf(k) in free
    ensures AllMild(LoadLines(fn, out, n, off), free, lim)
    decreases n
  {
    if n > 0 {
      LoadsMild(fn, out + 1, n - 1, off, free, lim);
    }
  }

  lemma {:induction false} SavesMild(fn: Fn, n: nat, free: set<Reg>, lim: nat)
    requires fn.SpillArgs() == 0 && 4 * n <= lim
    ensures AllMild(SaveLines(fn, n), free, lim)
  {
    if n > 0 {
      SavesMild(fn, n - 1, free, lim);
    }
  }

  lemma {:induction false} RestoresMild(fn: Fn, n: nat, free: set<Reg>, lim: nat)
    requires fn.SpillArgs() == 0 && forall k: nat :: k < n ==> SavedReg(k) in free
    ensures AllMild(RestoreLines(fn, n), free, lim)
  {
    if n > 0 {
      RestoresMild(fn, n - 1, free, lim);
    }
  }

  lemma MildJoin(xs: seq<Line>, ys: seq<Line>, free: set<Reg>, lim: nat)
    requires AllMild(xs, free, lim) && AllMild(ys, free, lim)
    ensures AllMild(xs + ys, free, lim)
  {
    hide Mild;
  }

  // ----- how they run -----

  /** The library, and calls that leave nothing in the registers. */
  ghost predicate Clearing(env: Env) { env.lib == LIB && forall m: Machine :: env.junk(m) == m.(regs := map[]) }

  /** The machine about to call the function with argument v, from outside its code. */
  predicate Ready(v: Word, m: Machine)
  {
    m.pc == 0 && !m.trapped && Aligned(Get(m, Sp)) && Get(m, A(0)) == v
  }

  lemma MildReaches(code: seq<Line>, env: Env, ls: seq<Line>, free: set<Reg>, lim: nat, m: Machine) returns (t: Machine)
    requires CodeAt(code, m.pc, ls) && AllMild(ls, free, lim) && Sp !in free && Aligned(Get(m, Sp)) && !m.trapped
    ensures MReaches(code, env, m, t) && t.pc == m.pc + |ls| && !t.trapped
    ensures forall r :: r !in free ==> Get(t, r) == Get(m, r)
    ensures forall x :: !(Get(m, Sp) <= x < Get(m, Sp) + lim) ==> Peek(t, x) == Peek(m, x)
  {
    hide MReaches, CodeAt, AllMild, Runs;
    var t0 := MildRuns(env, ls, free, lim, m);
    RunsReaches(code, env, ls, m, t0);
    t := t0.(pc := m.pc + |ls|);
    assert forall r :: Get(t, r) == Get(t0, r);
    assert forall x :: Peek(t, x) == Peek(t0, x);
  }

  /** One line. */
  lemma LineReaches(code: seq<Line>, env: Env, l: Line, rest: seq<Line>, m: Machine) returns (t: Machine)
    requires CodeAt(code, m.pc, [l] + rest) && Straight(l) && !m.trapped
    ensures t == Effect(env, l, m).(pc := m.pc + 1) && MReaches(code, env, m, t) && CodeAt(code, t.pc, rest)
  {
    hide MReaches;
    CodegenRun.CodeSplit(code, m.pc, [l], rest);
    assert code[m.pc] == code[m.pc..m.pc + 1][0] == l;
    t := MStep(code, env, m);
    MStepReaches(code, env, m);
  }

  lemma LoadReaches(code: seq<Line>, env: Env, rd: Reg, off: int, rest: seq<Line>, m: Machine) returns (t: Machine)
    requires CodeAt(code, m.pc, [Lw(rd, off, Sp)] + rest) && !m.trapped && Aligned(Get(m, Sp)) && Aligned(off)
    ensures t == Set(m, rd, Peek(m, Get(m, Sp) + off)).(pc := m.pc + 1)
    ensures MReaches(code, env, m, t) && CodeAt(code, t.pc, rest)
  {
    hide MReaches, CodeAt;
    AlignedSum(Get(m, Sp), off);
    t := LineReaches(code, env, Lw(rd, off, Sp), rest, m);
  }

  lemma StoreReaches(code: seq<Line>, env: Env, rs: Reg, off: int, rest: seq<Line>, m: Machine) returns (t: Machine)
    requires CodeAt(code, m.pc, [Sw(rs, off, Sp)] + rest) && !m.trapped && Aligned(Get(m, Sp)) && Aligned(off)
    ensures t == Poke(m, Get(m, Sp) + off, Get(m, rs)).(pc := m.pc + 1)
    ensures MReaches(code, env, m, t) && CodeAt(code, t.pc, rest)
  {
    hide MReaches, CodeAt;
    AlignedSum(Get(m, Sp), off);
    t := LineReaches(code, env, Sw(rs, off, Sp), rest, m);
  }

  lemma MoveReaches(code: seq<Line>, env: Env, rd: Reg, rs: Reg, rest: seq<Line>, m: Machine) returns (t: Machine)
    requires CodeAt(code, m.pc, [Mv(rd, rs)] + rest) && !m.trapped
    ensures t == Set(m, rd, Get(m, rs)).(pc := m.pc + 1) && MReaches(code, env, m, t) && CodeAt(code, t.pc, rest)
  {
    hide MReaches, CodeAt;
    t := LineReaches(code, env, Mv(rd, rs), rest, m);
  }

  lemma ReturnReaches(code: seq<Line>, env: Env, m: Machine) returns (t: Machine)
    requires CodeAt(code, m.pc, [Ret]) && !m.trapped
    ensures t == m.(pc := Get(m, Ra)) && MReaches(code, env, m, t)
  {
    hide MReaches;
    assert code[m.pc] == code[m.pc..m.pc + 1][0] == Ret;
    t := MStep(code, env, m);
    MStepReaches(code, env, m);
  }

  lemma EnterReaches(code: seq<Line>, env: Env, size: nat, rest: seq<Line>, m: Machine) returns (t: Machine)
    requires code == [Mark(FuncLabel(0)), AddSp(0 - size), Sw(Ra, size - 4, Sp)] + rest && size % 4 == 0
    requires m.pc == 0 && !m.trapped && Aligned(Get(m, Sp))
    ensures MReaches(code, env, m, t) && t.pc == 3 && !t.trapped && t.io == m.io
    ensures Get(t, Sp) == Get(m, Sp) - size && Aligned(Get(t, Sp)) && forall r :: r != Sp ==> Get(t, r) == Get(m, r)
    ensures Peek(t, Get(t, Sp) + size - 4) == Get(m, Ra)
  {
    hide MReaches, CodeAt, Effect;
    var l1, l2, l3 := Mark(FuncLabel(0)), AddSp(0 - size), Sw(Ra, size - 4, Sp);
    WholeCode(code, l1, l2, l3, rest);
    var m1 := MarkReaches(code, env, FuncLabel(0), [l2] + ([l3] + rest), m);
    var m2 := DropReaches(code, env, size, [l3] + rest, m1);
    t := StoreReaches(code, env, Ra, size - 4, rest, m2);
    MThen(code, env, m, m1, m2);
    MThen(code, env, m, m2, t);
  }

  lemma WholeCode(code: seq<Line>, l1: Line, l2: Line, l3: Line, rest: seq<Line>)
    requires code == [l1, l2, l3] + rest
    ensures CodeAt(code, 0, [l1] + ([l2] + ([l3] + rest)))
  {
    assert [l1, l2, l3] + rest == [l1] + ([l2] + ([l3] + rest));
  }

  lemma MarkReaches(code: seq<Line>, env: Env, l: Label, rest: seq<Line>, m: Machine) returns (t: Machine)
    requires CodeAt(code, m.pc, [Mark(l)] + rest) && !m.trapped
    ensures t == m.(pc := m.pc + 1) && MReaches(code, env, m, t) && CodeAt(code, t.pc, rest)
  {
    hide MReaches, CodeAt;
    t := LineReaches(code, env, Mark(l), rest, m);
  }

  lemma DropReaches(code: seq<Line>, env: Env, size: nat, rest: seq<Line>, m: Machine) returns (t: Machine)
    requires CodeAt(code, m.pc, [AddSp(0 - size)] + rest) && !m.trapped && Aligned(Get(m, Sp)) && size % 4 == 0
    ensures t == Set(m, Sp, Get(m, Sp) - size).(pc := m.pc + 1) && Aligned(Get(t, Sp))
    ensures MReaches(code, env, m, t) && CodeAt(code, t.pc, rest)
  {
    hide MReaches, CodeAt;
    t := LineReaches(code, env, AddSp(0 - size), rest, m);
  }

  lemma CallReaches(code: seq<Line>, env: Env, m: Machine) returns (t: Machine)
    requires 0 <= m.pc < |code| && code[m.pc] == CallTo(1) && Riscv.Find(code, FuncLabel(1)) == |code|
    requires Clearing(env) && !m.trapped
    ensures MReaches(code, env, m, t) && t.pc == m.pc + 1 && !t.trapped
    ensures Get(t, Sp) == Get(m, Sp) && (forall r :: r != Sp ==> Get(t, r) == 0)
    ensures forall x :: x >= Get(m, Sp) ==> Peek(t, x) == Peek(m, x)
  {
    t := MStep(code, env, m);
    MStepReaches(code, env, m);
  }

  // ----- call-safety -----

  lemma OneFunction(fd: FuncDef, f: nat)
    ensures Programs.Find(Prog(fd).funcs, f) == if f == 0 then Some(fd) else None
    ensures LowerProgram(Prog(fd)).funcs == [(0, LowerFunc(fd))]
  {
    hide LowerFunc;
    assert Prog(fd).funcs[1..] == [] && [(0, LowerFunc(fd))] + [] == [(0, LowerFunc(fd))];
    assert LowerFuncs([]) == [] && Programs.Find<FuncDef>([], f) == None;
  }

  lemma OnlyFunction(fd: FuncDef)
    requires FuncDefOk(Prog(fd).funcs, fd)
    ensures SourceOk(Prog(fd))
  {
    hide FuncDefOk, Programs.Find;
    forall f | Programs.Find(Prog(fd).funcs, f).Some?
      ensures FuncDefOk(Prog(fd).funcs, Programs.Find(Prog(fd).funcs, f).value)
    {
      OneFunction(fd, f);
    }
  }

  /** The call is well typed, has no logical operator and reads no variable. */
  lemma CallIsOk(fd: FuncDef, made: set<nat>)
    ensures ExpTyped(Prog(fd).funcs, CALL_G) && !HasLogic(CALL_G) && LogicFirst(CALL_G) && ExpReads(made, CALL_G)
  {
    hide Programs.Find;
    OneFunction(fd, 1);
    assert ArgsTyped(Prog(fd).funcs, NoExps) && ArgsRead(made, NoExps);
    assert ArgsTyped(Prog(fd).funcs, CALL_G.args) && ArgsRead(made, CALL_G.args);
  }

  lemma LostEnds(fs: Funcs, params: set<nat>, made: set<nat>)
    requires ExpTyped(fs, CALL_G) && !HasLogic(CALL_G) && LogicFirst(CALL_G) && ExpReads(made, CALL_G) && 0 in made
    ensures ItemsTyped(fs, params, LOST_END) && ItemsWellNested(LOST_END, false) && ItemsLogicFirst(LOST_END)
    ensures ItemsKept(made, false, LOST_END)
  {
    var sum := Exp.Binary(Add, READ, CALL_G);
    assert ExpTyped(fs, sum) && LogicFirst(sum) && ExpReads(made, sum);
  }

  lemma OneParam(fs: Funcs, fd: FuncDef)
    requires fd.params == [0] && ItemsWellNested(fd.body, false) && ItemsTyped(fs, ParamSet(fd), fd.body)
    ensures FuncTyped(fs, fd) && 0 in FuncMade(fd)
  {
    assert fd.params[0] == 0;
  }

  lemma LostIsOk()
    ensures SourceOk(Prog(LOST))
  {
    hide Reads, ItemsTyped, ItemsKept, ItemsLogicFirst, ItemsWellNested, FuncTyped, FuncMade, ParamSet, ExpTyped,
         HasLogic,
         LogicFirst, ExpReads;
    var fs := Prog(LOST).funcs;
    CallIsOk(LOST, FuncMade(LOST));
    assert 0 in FuncMade(LOST) by { MadeParam(LOST); }
    LostEnds(fs, ParamSet(LOST), FuncMade(LOST));
    ReadsOk(fs, ParamSet(LOST), FuncMade(LOST), 5, LOST_END);
    OneParam(fs, LOST);
    OnlyFunction(LOST);
  }

  lemma MadeParam(fd: FuncDef)
    requires fd.params == [0]
    ensures 0 in FuncMade(fd)
  {
    assert fd.params[0] == 0;
  }

  /** The piece of code between a prefix and a suffix. */
  lemma PieceAt(code: seq<Line>, pre: seq<Line>, ls: seq<Line>, post: seq<Line>)
    requires code == pre + ls + post
    ensures CodeAt(code, |pre|, ls)
  {
  }

  lemma LostPieces()
    ensures var code, n := LostCode(), 3 + |LostBefore()|;
            && CodeAt(code, 3, LostBefore()) && n < |code| && code[n] == CallTo(1)
            && CodeAt(code, n + 1, [Mv(A(2), A(0))] + RestoreLines(LOST_FN, 6) + LOST_SUM + [Ret])
    ensures Riscv.Find(LostCode(), FuncLabel(1)) == |LostCode()|
  {
    hide LostBefore, RestoreLines;
    var head, back := [Mark(FuncLabel(0)), AddSp(-64), Sw(Ra, 60, Sp)], [Mv(A(2), A(0))] + RestoreLines(LOST_FN, 6);
    PieceAt(LostCode(), head, LostBefore(), [CallTo(1)] + back + LOST_SUM + [Ret]);
    PieceAt(LostCode(), head + LostBefore() + [CallTo(1)], back + LOST_SUM + [Ret], []);
    LostPrinted();
    hide ProgramLines;
    OtherLabel(LOST);
  }

  /** The library function has no label in the code. */
  lemma OtherLabel(fd: FuncDef)
    ensures var code := ProgramLines(LowerProgram(Prog(fd)).funcs); Riscv.Find(code, FuncLabel(1)) == |code|
  {
    hide ProgramLines, LowerFunc;
    var fs := LowerProgram(Prog(fd)).funcs;
    OneFunction(fd, 1);
    FindLowered(Prog(fd).funcs, 1);
    CodegenEntry.NoFuncLabel(fs, 1);
  }

  lemma LostMild()
    ensures AllMild(LostBefore(), {T(0), T(1), T(2), T(3), T(4), A(0), A(1)}, 60)
    ensures AllMild(RestoreLines(LOST_FN, 6), {T(0), T(1), T(2), T(3), T(4), A(0)}, 0)
  {
    hide LoadLines, SaveLines, RestoreLines, Mild;
    var c := LOST_FN;
    var free := {T(0), T(1), T(2), T(3), T(4), A(0), A(1)};
    var start := [Mark(BlockLabel(0, 0)), Sw(A(0), 32, Sp)];
    assert AllMild(start, free, 60) && AllMild([Mv(A(0), Zero)], free, 60) by { StartMild(free); }
    LoadsMild(c, 0, 6, 32, free, 60);
    SavesMild(c, 6, free, 60);
    RestoresMild(c, 6, {T(0), T(1), T(2), T(3), T(4), A(0)}, 0);
    MildJoin(start, LoadLines(c, 0, 6, 32), free, 60);
    MildJoin(start + LoadLines(c, 0, 6, 32), SaveLines(c, 6), free, 60);
    MildJoin(start + LoadLines(c, 0, 6, 32) + SaveLines(c, 6), [Mv(A(0), Zero)], free, 60);
  }

  lemma StartMild(free: set<Reg>)
    requires A(0) in free
    ensures AllMild([Mark(BlockLabel(0, 0)), Sw(A(0), 32, Sp)], free, 60) && AllMild([Mv(A(0), Zero)], free, 60)
  {
  }

  /** The lines every function ends with. */
  lemma EpilogueReaches(code: seq<Line>, env: Env, size: nat, m: Machine) returns (u: Machine)
    requires CodeAt(code, m.pc, [Lw(Ra, size - 4, Sp), AddSp(size), Ret]) && !m.trapped && Aligned(Get(m, Sp))
             && size % 4 == 0
    ensures MReaches(code, env, m, u) && !u.trapped && u.pc == Peek(m, Get(m, Sp) + size - 4)
            && Get(u, A(0)) == Get(m, A(0))
  {
    hide MReaches, CodeAt;
    var l1, l2 := Lw(Ra, size - 4, Sp), AddSp(size);
    assert [l1, l2, Ret] == [l1] + ([l2] + [Ret]);
    AlignedSum(Get(m, Sp), size - 4);
    var m1 := LineReaches(code, env, l1, [l2] + [Ret], m);
    assert m1 == Set(m, Ra, Peek(m, Get(m, Sp) + size - 4)).(pc := m.pc + 1);
    var m2 := LineReaches(code, env, l2, [Ret], m1);
    u := ReturnReaches(code, env, m2);
    MThen(code, env, m, m1, m2);
    MThen(code, env, m, m2, u);
  }

  /** The last lines of the first program: the lost operand is 0, and so is the sum. */
  lemma LostEndRuns(code: seq<Line>, env: Env, m: Machine) returns (u: Machine)
    requires CodeAt(code, m.pc, LOST_SUM + [Ret]) && !m.trapped && Aligned(Get(m, Sp))
    requires Get(m, A(1)) == Get(m, A(2)) == 0
    ensures MReaches(code, env, m, u) && !u.trapped && u.pc == Peek(m, Get(m, Sp) + 60) && Get(u, A(0)) == 0
  {
    hide MReaches, CodeAt;
    var end := [Lw(Ra, 60, Sp), AddSp(64), Ret];
    assert LOST_SUM + [Ret] == [LOST_SUM[0]] + ([LOST_SUM[1]] + end);
    var m1 := LineReaches(code, env, LOST_SUM[0], [LOST_SUM[1]] + end, m);
    assert m1 == Set(m, A(3), 0).(pc := m.pc + 1);
    var m2 := LineReaches(code, env, LOST_SUM[1], end, m1);
    assert m2 == Set(m1, A(0), 0).(pc := m.pc + 2);
    u := EpilogueReaches(code, env, 64, m2);
    MThen(code, env, m, m1, m2);
    MThen(code, env, m, m2, u);
  }

  lemma LostRuns(env: Env, v: Word, m: Machine) returns (u: Machine)
    requires Clearing(env) && Ready(v, m)
    ensures MReaches(LostCode(), env, m, u) && !u.trapped && u.pc == Get(m, Ra) && Get(u, A(0)) == 0
  {
    hide MReaches, CodeAt, AllMild, LostBefore, RestoreLines, Riscv.Find;
    var code := LostCode();
    var rest := LostBefore() + [CallTo(1)] + ([Mv(A(2), A(0))] + RestoreLines(LOST_FN, 6)) + LOST_SUM + [Ret];
    LostMild();
    LostPieces();
    LostHead();
    var m1 := EnterReaches(code, env, 64, rest, m);
    var m2 := MildReaches(code, env, LostBefore(), {T(0), T(1), T(2), T(3), T(4), A(0), A(1)}, 60, m1);
    var m3 := CallReaches(code, env, m2);
    var m4 := LostBack(code, env, m3);
    u := LostEndRuns(code, env, m4);
    MThen(code, env, m, m1, m2);
    MThen(code, env, m, m2, m3);
    MThen(code, env, m, m3, m4);
    MThen(code, env, m, m4, u);
  }

  lemma LostHead()
    ensures LostCode() == [Mark(FuncLabel(0)), AddSp(-64), Sw(Ra, 60, Sp)]
                          + (LostBefore() + [CallTo(1)] + ([Mv(A(2), A(0))] + RestoreLines(LOST_FN,
                              6)) + LOST_SUM + [Ret])
  {
    hide LostBefore, RestoreLines;
  }

  /** The result is moved and the registers restored; a1 is not among them. */
  lemma LostBack(code: seq<Line>, env: Env, m: Machine) returns (t: Machine)
    requires CodeAt(code, m.pc, [Mv(A(2), A(0))] + RestoreLines(LOST_FN, 6) + LOST_SUM + [Ret])
    requires AllMild(RestoreLines(LOST_FN, 6), {T(0), T(1), T(2), T(3), T(4), A(0)}, 0)
    requires !m.trapped && Aligned(Get(m, Sp)) && forall r :: r != Sp ==> Get(m, r) == 0
    ensures MReaches(code, env, m, t) && CodeAt(code, t.pc, LOST_SUM + [Ret]) && !t.trapped
    ensures Get(t, Sp) == Get(m, Sp) && Get(t, A(1)) == Get(t, A(2)) == 0 && forall x :: Peek(t, x) == Peek(m, x)
  {
    hide MReaches, AllMild, RestoreLines;
    var back, rest := RestoreLines(LOST_FN, 6), LOST_SUM + [Ret];
    assert [Mv(A(2), A(0))] + back + LOST_SUM + [Ret] == [Mv(A(2), A(0))] + (back + rest);
    var m1 := LineReaches(code, env, Mv(A(2), A(0)), back + rest, m);
    assert Get(m, A(0)) == 0 && Get(m, A(1)) == 0;
    assert m1 == Set(m, A(2), 0).(pc := m.pc + 1);
    assert Get(m1, Sp) == Get(m, Sp) && Get(m1, A(1)) == Get(m1, A(2)) == 0;
    assert forall x :: Peek(m1, x) == Peek(m, x);
    CodegenRun.CodeSplit(code, m1.pc, back, rest);
    t := MildReaches(code, env, back, {T(0), T(1), T(2), T(3), T(4), A(0)}, 0, m1);
    MThen(code, env, m, m1, t);
  }

  /** A program that meets every condition but call-safety: in the source it returns its argument, and compiled it
      returns 0 from any library call that leaves 0 in the registers it need not keep. */
  lemma LostAtCall(v: Word, w: World, env: Env, m: Machine) returns (u: Machine)
    requires Clearing(env) && Ready(v, m)
    ensures SourceOk(Prog(LOST)) && FrameSafe(FnOf(0, LowerFunc(LOST)))
    ensures !CallSafe(FnOf(0, LowerFunc(LOST)), BlockAt(LowerFunc(LOST).blocks, 0))
    ensures CallSource(Prog(LOST), 1, Callee(0, false), [v], w) == Returns(Called(w), v)
    ensures MReaches(ProgramLines(LowerProgram(Prog(LOST)).funcs), env, m, u)
    ensures !u.trapped && u.pc == Get(m, Ra) && Get(u, A(0)) == 0
  {
    hide SourceOk, CallSource, MReaches, ProgramLines, LowerProgram, LowerFunc, FnOf, VarsOf, LostCode, CallSafe;
    LostIsOk();
    LostContext();
    LostCalls();
    LostMeans(v, w);
    LostPrinted();
    u := LostRuns(env, v, m);
  }

  /** Six values are computed before the call. */
  lemma LostCalls()
    ensures !CallSafe(FnOf(0, LowerFunc(LOST)), BlockAt(LowerFunc(LOST).blocks, 0))
  {
    hide LowerFunc, FnOf, CountVals, CountArgs, CountVars, Loads;
    LostLowered();
    LostContext();
    LoadsOnly(6, 0);
    CountParam(LOST_FN);
    CountLoads(LOST_FN, PARAM, 6, 0);
    assert LostInsts()[8] == CALL && LostInsts()[..8] == PARAM + Loads(6, 0);
  }

  // ----- frame-safety -----

  lemma SpoiltEnds(fs: Funcs, params: set<nat>, made: set<nat>)
    requires 0 in made
    ensures ItemsTyped(fs, params, SPOILT_END) && ItemsWellNested(SPOILT_END, false) && ItemsLogicFirst(SPOILT_END)
    ensures ItemsKept(made, false, SPOILT_END)
  {
    assert ExpTyped(fs, Neg(READ)) && LogicFirst(Neg(READ)) && ExpReads(made, Neg(READ)) && ExpReads(made, READ);
    assert ItemsTyped(fs, params, SPOILT_END.tail) && ItemsWellNested(SPOILT_END.tail, false);
    assert ItemsLogicFirst(SPOILT_END.tail) && ItemsKept(made, false, SPOILT_END.tail);
  }

  lemma SpoiltBody(fs: Funcs, params: set<nat>, made: set<nat>, rest: Items)
    requires ExpTyped(fs, CALL_G) && LogicFirst(CALL_G) && ExpReads(made, CALL_G)
    requires ItemsTyped(fs, params, rest) && ItemsWellNested(rest, false) && ItemsLogicFirst(rest)
             && ItemsKept(made, false, rest)
    ensures var items := Items(Stm(Eval(CALL_G)), rest);
            && ItemsTyped(fs, params, items) && ItemsWellNested(items, false) && ItemsLogicFirst(items)
            && ItemsKept(made, false, items)
  {
  }

  lemma SpoiltIsOk()
    ensures SourceOk(Prog(SPOILT))
  {
    hide Reads, ItemsTyped, ItemsKept, ItemsLogicFirst, ItemsWellNested, FuncTyped, FuncMade, ParamSet, ExpTyped,
         HasLogic,
         LogicFirst, ExpReads;
    var fs, made := Prog(SPOILT).funcs, FuncMade(SPOILT);
    CallIsOk(SPOILT, made);
    assert 0 in made by { MadeParam(SPOILT); }
    SpoiltEnds(fs, ParamSet(SPOILT), made);
    ReadsOk(fs, ParamSet(SPOILT), made, 10, SPOILT_END);
    SpoiltBody(fs, ParamSet(SPOILT), made, Reads(10, SPOILT_END));
    OneParam(fs, SPOILT);
    OnlyFunction(SPOILT);
  }

  const SPOILT_START: seq<Line> := [Mark(BlockLabel(0, 0)), Sw(A(0), 52, Sp), Mv(A(0), Zero)]

  function SpoiltBack(): seq<Line> { [Mv(T(0), A(0))] + LoadLines(SPOILT_FN, 1, 10, 52) }

  lemma SpoiltPieces()
    ensures var code := SpoiltCode();
            && CodeAt(code, 3, SPOILT_START) && 6 < |code| && code[6] == CallTo(1)
            && CodeAt(code, 7, SpoiltBack()) && CodeAt(code, 7 + |SpoiltBack()|, SPOILT_LINES + [Ret])
    ensures Riscv.Find(SpoiltCode(), FuncLabel(1)) == |SpoiltCode()|
  {
    hide LoadLines;
    var head, back := [Mark(FuncLabel(0)), AddSp(-80), Sw(Ra, 76, Sp)], SpoiltBack();
    PieceAt(SpoiltCode(), head, SPOILT_START, [CallTo(1)] + back + SPOILT_LINES + [Ret]);
    PieceAt(SpoiltCode(), head + SPOILT_START + [CallTo(1)], back, SPOILT_LINES + [Ret]);
    PieceAt(SpoiltCode(), head + SPOILT_START + [CallTo(1)] + back, SPOILT_LINES + [Ret], []);
    SpoiltPrinted();
    hide ProgramLines;
    OtherLabel(SPOILT);
  }

  const LOADED: set<Reg> := {T(0), T(1), T(2), T(3), T(4), A(1), A(2), A(3), A(4), A(5), A(6)}

  lemma SpoiltMild()
    ensures AllMild(SpoiltBack(), LOADED, 0)
  {
    hide LoadLines;
    assert AllMild([Mv(T(0), A(0))], LOADED, 0);
    LoadsMild(SPOILT_FN, 1, 10, 52, LOADED, 0);
    hide Mild;
    MildJoin([Mv(T(0), A(0))], LoadLines(SPOILT_FN, 1, 10, 52), LOADED, 0);
  }

  /** The argument is stored in its slot, where the spilled value goes later. */
  lemma SpoiltStart(code: seq<Line>, env: Env, m: Machine) returns (t: Machine)
    requires CodeAt(code, m.pc, SPOILT_START) && !m.trapped && Aligned(Get(m, Sp))
    ensures MReaches(code, env, m, t) && t.pc == m.pc + 3 && !t.trapped && Get(t, Sp) == Get(m, Sp)
    ensures Peek(t, Get(m, Sp) + 52) == Get(m, A(0)) && Peek(t, Get(m, Sp) + 76) == Peek(m, Get(m, Sp) + 76)
  {
    hide MReaches, CodeAt;
    var ls := SPOILT_START;
    assert ls == [ls[0]] + ([ls[1]] + ([ls[2]] + []));
    AlignedSum(Get(m, Sp), 52);
    var m1 := LineReaches(code, env, ls[0], [ls[1]] + ([ls[2]] + []), m);
    assert m1 == m.(pc := m.pc + 1);
    var m2 := LineReaches(code, env, ls[1], [ls[2]] + [], m1);
    assert m2 == Poke(m, Get(m, Sp) + 52, Get(m, A(0))).(pc := m.pc + 2);
    t := LineReaches(code, env, ls[2], [], m2);
    MThen(code, env, m, m1, m2);
    MThen(code, env, m, m2, t);
  }

  lemma NegReaches(code: seq<Line>, env: Env, v: Word, rest: seq<Line>, m: Machine) returns (t: Machine)
    requires CodeAt(code, m.pc, [Alu(SUB, T(5), Zero, A(7))] + rest) && !m.trapped && Get(m, A(7)) == v
    ensures t == Set(m, T(5), Apply(Sub, 0, v)).(pc := m.pc + 1) && MReaches(code, env, m, t)
            && CodeAt(code, t.pc, rest)
  {
    hide MReaches, CodeAt;
    t := LineReaches(code, env, Alu(SUB, T(5), Zero, A(7)), rest, m);
    assert Wrap(v) == v && Wrap(0) == 0;
  }

  /** The negated argument overwrites the argument, and is read back as the result. */
  lemma SpoiltEndRuns(code: seq<Line>, env: Env, v: Word, m: Machine) returns (u: Machine)
    requires CodeAt(code, m.pc, SPOILT_LINES + [Ret]) && !m.trapped && Aligned(Get(m, Sp))
    requires Peek(m, Get(m, Sp) + 52) == v
    ensures MReaches(code, env, m, u) && !u.trapped && u.pc == Peek(m, Get(m, Sp) + 76)
            && Get(u, A(0)) == Apply(Sub, 0, v)
  {
    hide MReaches, CodeAt, Effect, Apply;
    var ls, end := SPOILT_LINES, [Lw(Ra, 76, Sp), AddSp(80), Ret];
    var back := [ls[3]] + ([ls[4]] + ([ls[5]] + ([ls[6]] + end)));
    assert ls + [Ret] == [ls[0]] + ([ls[1]] + ([ls[2]] + back));
    var m1 := LoadReaches(code, env, A(7), 52, [ls[1]] + ([ls[2]] + back), m);
    assert m1 == Set(m, A(7), v).(pc := m.pc + 1);
    var m2 := NegReaches(code, env, v, [ls[2]] + back, m1);
    var m3 := StoreReaches(code, env, T(5), 52, back, m2);
    assert m3 == Poke(m2, Get(m, Sp) + 52, Apply(Sub, 0, v)).(pc := m.pc + 3);
    u := SpoiltBackRuns(code, env, Apply(Sub, 0, v), m3);
    MThen(code, env, m, m1, m2);
    MThen(code, env, m, m2, m3);
    MThen(code, env, m, m3, u);
  }

  /** The variable's word is loaded, spilled, loaded again and returned. */
  lemma SpoiltBackRuns(code: seq<Line>, env: Env, x: Word, m: Machine) returns (u: Machine)
    requires var ls := SPOILT_LINES;
             CodeAt(code, m.pc, [ls[3]] + ([ls[4]] + ([ls[5]] + ([ls[6]] + [Lw(Ra, 76, Sp), AddSp(80), Ret]))))
    requires !m.trapped && Aligned(Get(m, Sp)) && Peek(m, Get(m, Sp) + 52) == x
    ensures MReaches(code, env, m, u) && !u.trapped && u.pc == Peek(m, Get(m, Sp) + 76) && Get(u, A(0)) == x
  {
    hide MReaches, CodeAt, Effect;
    var ls, end := SPOILT_LINES, [Lw(Ra, 76, Sp), AddSp(80), Ret];
    var m1 := LoadReaches(code, env, T(5), 52, [ls[4]] + ([ls[5]] + ([ls[6]] + end)), m);
    assert m1 == Set(m, T(5), x).(pc := m.pc + 1);
    var m2 := StoreReaches(code, env, T(5), 56, [ls[5]] + ([ls[6]] + end), m1);
    assert m2 == Poke(m1, Get(m, Sp) + 56, x).(pc := m.pc + 2);
    var m3 := LoadReaches(code, env, T(5), 56, [ls[6]] + end, m2);
    assert m3 == Set(m2, T(5), x).(pc := m.pc + 3);
    var m4 := MoveReaches(code, env, A(0), T(5), end, m3);
    assert m4 == Set(m3, A(0), x).(pc := m.pc + 4);
    u := EpilogueReaches(code, env, 80, m4);
    MThen(code, env, m, m1, m2);
    MThen(code, env, m, m2, m3);
    MThen(code, env, m, m3, m4);
    MThen(code, env, m, m4, u);
  }

  lemma SpoiltRuns(env: Env, v: Word, m: Machine) returns (u: Machine)
    requires Clearing(env) && Ready(v, m)
    ensures MReaches(SpoiltCode(), env, m, u) && !u.trapped && u.pc == Get(m, Ra) && Get(u, A(0)) == Apply(Sub, 0, v)
  {
    hide MReaches, CodeAt, AllMild, Riscv.Find, SpoiltBack, Apply;
    var code := SpoiltCode();
    SpoiltMild();
    SpoiltPieces();
    SpoiltHead();
    var m1 := EnterReaches(code, env, 80, SPOILT_START + [CallTo(1)] + SpoiltBack() + SPOILT_LINES + [Ret], m);
    var m2 := SpoiltStart(code, env, m1);
    var m3 := CallReaches(code, env, m2);
    var m4 := MildReaches(code, env, SpoiltBack(), LOADED, 0, m3);
    u := SpoiltEndRuns(code, env, v, m4);
    MThen(code, env, m, m1, m2);
    MThen(code, env, m, m2, m3);
    MThen(code, env, m, m3, m4);
    MThen(code, env, m, m4, u);
  }

  lemma SpoiltHead()
    ensures SpoiltCode() == [Mark(FuncLabel(0)), AddSp(-80), Sw(Ra, 76, Sp)]
                            + (SPOILT_START + [CallTo(1)] + SpoiltBack() + SPOILT_LINES + [Ret])
  {
    hide LoadLines;
  }

  /** A program that meets every condition but frame-safety: in the source it returns its argument, and compiled it
      returns its argument negated. */
  lemma SpoiltBySpill(v: Word, w: World, env: Env, m: Machine) returns (u: Machine)
    requires Clearing(env) && Ready(v, m)
    ensures SourceOk(Prog(SPOILT)) && !FrameSafe(FnOf(0, LowerFunc(SPOILT)))
    ensures forall b :: b in LowerFunc(SPOILT).bbs ==>
            CallSafe(FnOf(0, LowerFunc(SPOILT)), BlockAt(LowerFunc(SPOILT).blocks, b))
    ensures CallSource(Prog(SPOILT), 1, Callee(0, false), [v], w) == Returns(Called(w), v)
    ensures MReaches(ProgramLines(LowerProgram(Prog(SPOILT)).funcs), env, m, u)
    ensures !u.trapped && u.pc == Get(m, Ra) && Get(u, A(0)) == Apply(Sub, 0, v)
  {
    hide SourceOk, CallSource, MReaches, ProgramLines, LowerProgram, LowerFunc, FnOf, VarsOf, SpoiltCode, CallSafe,
         Apply;
    SpoiltIsOk();
    SpoiltContext();
    SpoiltCalls();
    SpoiltMeans(v, w);
    SpoiltPrinted();
    u := SpoiltRuns(env, v, m);
  }

  /** No value is computed before its only call. */
  lemma SpoiltCalls()
    ensures forall b :: b in LowerFunc(SPOILT).bbs ==>
            CallSafe(FnOf(0, LowerFunc(SPOILT)), BlockAt(LowerFunc(SPOILT).blocks, b))
  {
    hide LowerFunc, FnOf, CountVals, Loads;
    SpoiltLowered();
    var insts := SpoiltInsts();
    LoadsOnly(10, 1);
    CountParam(SPOILT_FN);
    forall j | 0 <= j < |insts| && insts[j].Call? ensures CountVals(insts[..j]) <= T_MAX {
      assert j == 2 && insts[..2] == PARAM;
    }
  }

  lemma {:induction false} LoadsOnly(n: nat, id: nat)
    ensures |Loads(n, id)| == n && forall i :: 0 <= i < n ==> Loads(n, id)[i].Load?
    decreases n
  {
    if n > 0 {
      LoadsOnly(n - 1, id + 1);
    }
  }
}
