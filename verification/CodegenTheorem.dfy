/**
 * Code generation preserves meaning: running the printed program does what the IR program does.
 */
module CodegenTheorem {
  import opened Words
  import opened Source
  import opened Koopa
  import opened Riscv
  import opened Codegen
  import opened CodegenFrame
  import opened CodegenValues
  import opened CodegenInsts
  import opened CodegenCalls
  import opened CodegenLayout
  import opened CodegenRun
  import opened CodegenEntry
  import opened Lists
  import opened Programs

  /** Calls name a function's kind as the program defines it. */
  predicate CallsAgree(fs: seq<(nat, Func)>, insts: seq<Inst>)
  {
    forall i :: 0 <= i < |insts| && insts[i].Call? ==> KindAgrees(fs, insts[i].f)
  }

  predicate KindAgrees(fs: seq<(nat, Func)>, callee: Callee)
  {
    var fn := Programs.Find(fs, callee.f);
    fn.Some? ==> callee.isVoid == fn.value.isVoid
  }

  /** Every function is one the code generator handles. */
  ghost predicate ProgramOk(p: KoopaProgram)
  {
    forall f :: Programs.Find(p.funcs, f).Some? ==>
      var fn := Programs.Find(p.funcs, f).value;
      (exists ps :: FuncOk(f, fn, ps)) && forall b :: b in fn.bbs ==> CallsAgree(p.funcs, BlockAt(fn.blocks, b))
  }

  // ----- between the instructions -----

  /** The run stands in a block of the function, before the instructions the code stands before. */
  ghost predicate Inside(a: Act, p: KoopaProgram, fn: Func, slots: Stacks, rest: seq<Inst>, em: Em, live: Live,
                         c: Config, m: Machine)
  {
    && Before(a, ProgramLines(p.funcs), slots, rest, em, live, c, m)
    && c.at in fn.bbs && c.at < |fn.blocks| && c.pc <= |fn.blocks[c.at]| && rest == fn.blocks[c.at][c.pc..]
  }

  /** A function of the program, its activation and its slots. */
  ghost predicate Running(a: Act, p: KoopaProgram, f: nat, fn: Func, ps: seq<nat>)
  {
    && Programs.Find(p.funcs, f) == Some(fn) && FuncOk(f, fn, ps)
    && a.fn == FnOf(f, fn) && a.params == fn.params && a.env.lib == p.lib && EnvOk(a.env, a.top)
  }

  /** From a block's label into the block. */
  lemma BlockEnter(a: Act, p: KoopaProgram, f: nat, fn: Func, ps: seq<nat>, c: Config, m: Machine) returns (t: Machine)
    requires Running(a, p, f, fn, ps) && c.At? && c.at in fn.bbs[1..]
    requires AtBlock(a, ProgramLines(p.funcs), Slots(f, fn, ps), fn.blocks, c, m)
    ensures MReaches(ProgramLines(p.funcs), a.env, m, t)
    ensures Inside(a, p, fn, Slots(f, fn, ps), BlockAt(fn.blocks, c.at), Fresh(Slots(f, fn, ps)), map[], c, t)
  {
    hide FuncOk, FnOf, VarsOf, Slots, TablesOk, Matches, Riscv.Find, BlockOk, MStep, MReaches, CodeAt;
    var code, s := ProgramLines(p.funcs), Slots(f, fn, ps);
    var g := BlockAt(fn.blocks, c.at);
    var em := Fresh(s);
    var l := Mark(BlockLabel(f, c.at));
    BlockCode(a, p, f, fn, ps, c.at, m);
    OtherBlock(f, fn, ps, c.at);
    MatchesMeans(a, em, map[], c, m);
    LineStep(code, a.env, m, l);
    t := m.(pc := m.pc + 1);
    assert MStep(code, a.env, m) == t by { MarkStep(code, a.env, m); }
    PcMatches(a, em, map[], c, m, t.pc);
    assert g[0..] == g;
  }

  lemma MarkStep(code: seq<Line>, env: Env, m: Machine)
    requires !m.trapped && 0 <= m.pc < |code| && code[m.pc].Mark?
    ensures MStep(code, env, m) == m.(pc := m.pc + 1)
  {
  }

  lemma BlockCode(a: Act, p: KoopaProgram, f: nat, fn: Func, ps: seq<nat>, b: nat, m: Machine)
    requires Running(a, p, f, fn, ps) && b in fn.bbs[1..]
    requires m.pc == Riscv.Find(ProgramLines(p.funcs), BlockLabel(a.fn.f, b))
    ensures CodeAt(ProgramLines(p.funcs), m.pc, [Mark(BlockLabel(f, b))])
    ensures CodeAt(ProgramLines(p.funcs), m.pc + 1, InstsLines(a.fn, Fresh(Slots(f, fn, ps)), BlockAt(fn.blocks, b)).0)
  {
    hide FuncOk, FnOf, VarsOf, Slots, InstsLines, CodeAt, Riscv.Find;
    BlockFound(p.funcs, f, ps, b);
    FnOfF(f, fn);
    CodeSplit(ProgramLines(p.funcs), m.pc, [Mark(BlockLabel(f, b))],
              InstsLines(a.fn, Fresh(Slots(f, fn, ps)), BlockAt(fn.blocks, b)).0);
  }

  lemma MatchesMeans(a: Act, em: Em, live: Live, c: Config, m: Machine)
    requires Matches(a, em, live, c, m)
    ensures c.At? && !m.trapped && Get(m, Sp) == a.base
  {
  }

  /** What FuncOk says of a block after the entry. */
  lemma OtherBlock(f: nat, fn: Func, ps: seq<nat>, b: nat)
    requires FuncOk(f, fn, ps) && b in fn.bbs[1..]
    ensures b in fn.bbs && b < |fn.blocks| && BlockAt(fn.blocks, b) == fn.blocks[b]
    ensures BlockOk(FnOf(f, fn), Fresh(Slots(f, fn, ps)), map[], BlockAt(fn.blocks, b))
    ensures CountVals(BlockAt(fn.blocks, b)) <= FnOf(f, fn).valCount
            && CountArgs(BlockAt(fn.blocks, b)) <= FnOf(f, fn).argCount
  {
    MaxOverBounds(CountVals, fn.blocks, fn.bbs, b);
    MaxOverBounds(CountArgs, fn.blocks, fn.bbs, b);
  }

  lemma TargetsOk(f: nat, fn: Func, ps: seq<nat>, c: Config, rest: seq<Inst>)
    requires FuncOk(f, fn, ps) && c.At? && c.at in fn.bbs && c.pc < |fn.blocks[c.at]| && rest == fn.blocks[c.at][c.pc..]
    ensures rest[0].Jump? ==> rest[0].target in fn.bbs[1..]
    ensures rest[0].Branch? ==> rest[0].ifTrue in fn.bbs[1..] && rest[0].ifFalse in fn.bbs[1..]
  {
    assert rest[0] == fn.blocks[c.at][c.pc];
  }

  // ----- calls -----

  /** The machine stands on a call, the arguments in place. */
  ghost predicate OnCall(code: seq<Line>, env: Env, top: int, callee: Callee, args: seq<Word>, w: World, m: Machine)
  {
    && 0 <= m.pc < |code| && code[m.pc] == CallTo(callee.f) && EntryOk(env, top, args, w, m)
  }

  /** What the caller finds when a call has returned. */
  ghost predicate CallDone(env: Env, top: int, callee: Callee, n: nat, w: World, v: Word, m: Machine, u: Machine)
  {
    && u.pc == m.pc + 1 && Kept(env, top, n, w, m, u) && (!callee.isVoid ==> Get(u, A(0)) == v)
  }

  /** A library call does what the library does. */
  lemma LibraryRuns(p: KoopaProgram, env: Env, top: int, callee: Callee, args: seq<Word>, w: World, m: Machine)
    returns (u: Machine)
    requires Programs.Find(p.funcs, callee.f).None? && |args| == p.lib.arity(callee.f) && env.lib == p.lib
    requires OnCall(ProgramLines(p.funcs), env, top, callee, args, w, m) && EnvOk(env, top)
    ensures var w1 := World(w.globals, w.io + [Event(callee.f, args)]);
            && MReaches(ProgramLines(p.funcs), env, m, u)
            && CallDone(env, top, callee, |args|, w1, p.lib.result(w.io, callee.f, args), m, u)
  {
    var code := ProgramLines(p.funcs);
    NoFuncLabel(p.funcs, callee.f);
    assert Riscv.Find(code, FuncLabel(callee.f)) == |code|;
    u := MStep(code, env, m);
    MStepReaches(code, env, m);
    hide ProgramLines, MReaches, Riscv.Find;
    LibraryKeeps(env, top, callee, args, w, m);
  }

  lemma LibraryKeeps(env: Env, top: int, callee: Callee, args: seq<Word>, w: World, m: Machine)
    requires EntryOk(env, top, args, w, m) && EnvOk(env, top) && |args| == env.lib.arity(callee.f)
    ensures CallDone(env, top, callee, |args|, World(w.globals, w.io + [Event(callee.f, args)]),
                     env.lib.result(w.io, callee.f, args), m, LibraryCall(env, callee.f, m))
  {
    assert ArgsAt(m, |args|) == args by { hide ArgAt; }
    hide ArgsAt, ArgAt;
    var u := LibraryCall(env, callee.f, m);
    forall x | x >= Get(m, Sp) ensures Peek(u, x) == Peek(m, x) {
    }
  }

  // ----- up to the call -----

  function BeforeCallLines(fn: Fn, em: Em, i: Inst): seq<Line>
    requires i.Call?
  {
    SaveLines(fn, Min(em.out, R_MAX)) + ArgLines(fn, em, i.args).0
  }

  function AfterCallLines(fn: Fn, em: Em, i: Inst): seq<Line>
    requires i.Call?
  {
    if i.f.isVoid then []
    else Codegen.Result(fn, em, Mv(Dest(fn, em), A(0))) + RestoreLines(fn, Min(em.out, R_MAX))
  }

  lemma CallShape(fn: Fn, em: Em, i: Inst)
    requires i.Call?
    ensures InstLines(fn, em, i).0 == BeforeCallLines(fn, em, i) + ([CallTo(i.f.f)] + AfterCallLines(fn, em, i))
  {
    hide SaveLines, RestoreLines, ArgLines, Codegen.Result;
    var ls := BeforeCallLines(fn, em, i);
    Nest4(ls, [CallTo(i.f.f)], Codegen.Result(fn, em, Mv(Dest(fn, em), A(0))), RestoreLines(fn, Min(em.out, R_MAX)));
  }

  /** The lines of a call, piece by piece. */
  lemma CallCode(a: Act, code: seq<Line>, slots: Stacks, rest: seq<Inst>, em: Em, live: Live, c: Config, m: Machine)
    requires rest != [] && Before(a, code, slots, rest, em, live, c, m) && rest[0].Call?
    ensures var ls, ks := BeforeCallLines(a.fn, em, rest[0]), AfterCallLines(a.fn, em, rest[0]);
            && CodeAt(code, m.pc, ls) && CodeAt(code, m.pc + |ls|, [CallTo(rest[0].f.f)])
            && CodeAt(code, m.pc + |ls| + 1, ks)
            && |InstLines(a.fn, em, rest[0]).0| == |ls| + 1 + |ks|
  {
    hide Matches, TablesOk, BlockOk, InstLines, BeforeCallLines, AfterCallLines, CodeAt;
    var i := rest[0];
    var ls, ks := BeforeCallLines(a.fn, em, i), AfterCallLines(a.fn, em, i);
    CallShape(a.fn, em, i);
    CodeSplit(code, m.pc, InstLines(a.fn, em, i).0, InstsLines(a.fn, InstLines(a.fn, em, i).1, rest[1..]).0);
    CodeSplit(code, m.pc, ls, [CallTo(i.f.f)] + ks);
    CodeSplit(code, m.pc + |ls|, [CallTo(i.f.f)], ks);
  }

  /** What Before says of a call about to be made. */
  lemma BeforeCallMeans(a: Act, code: seq<Line>, slots: Stacks, rest: seq<Inst>, em: Em, live: Live, c: Config,
                        m: Machine)
    requires rest != [] && Before(a, code, slots, rest, em, live, c, m) && rest[0].Call?
    ensures c.At? && TablesOk(a, em, live) && Matches(a, em, live, c, m)
    ensures |rest[0].args| <= a.fn.argCount && (!rest[0].f.isVoid ==> em.out < a.fn.valCount)
    ensures forall x :: x in rest[0].args ==> Usable(live, x)
  {
    BeforeMeans(a, code, slots, rest, em, live, c, m);
    hide Matches, TablesOk, InstLines, InstsLines, LiveAfter, Usable;
    CountsHead(rest);
  }

  /** The saved registers and arguments are in place when the machine stands on the call. */
  lemma CallArrive(a: Act, code: seq<Line>, slots: Stacks, rest: seq<Inst>, em: Em, live: Live, k: Ctx, c: Config,
                   m: Machine)
    returns (t: Machine)
    requires rest != [] && Before(a, code, slots, rest, em, live, c, m) && rest[0].Call?
    ensures c.At? && Koopa.Values(k, rest[0].args, c.regs).Some?
            && |Koopa.Values(k, rest[0].args, c.regs).value| == |rest[0].args|
    ensures MReaches(code, a.env, m, t)
    ensures OnCall(code, a.env, a.top, rest[0].f, Koopa.Values(k, rest[0].args, c.regs).value, c.s.w, t)
    ensures LowFrame(a, m, t) && SavedIn(a, Min(em.out, R_MAX), m, t)
    ensures t.pc == m.pc + |BeforeCallLines(a.fn, em, rest[0])|
  {
    hide Before, TablesOk, Matches, Runs, AtCall, CodeAt, EntryOk, LowFrame, SavedIn, Usable;
    var i := rest[0];
    var ls := BeforeCallLines(a.fn, em, i);
    BeforeCallMeans(a, code, slots, rest, em, live, c, m);
    CallCode(a, code, slots, rest, em, live, c, m);
    var t1 := BeforeCall(a, em, live, i.args, k, c, m);
    t := t1.(pc := m.pc + |ls|);
    CallReady(a, em, live, i.args, k, c, m, t1, t.pc);
    RunsReaches(code, a.env, ls, m, t1);
    CodeHas(code, t.pc, CallTo(i.f.f));
  }

  lemma CodeHas(code: seq<Line>, p: int, l: Line)
    requires CodeAt(code, p, [l])
    ensures 0 <= p < |code| && code[p] == l
  {
    assert code[p] == code[p..p + 1][0];
  }

  lemma CallReady(a: Act, em: Em, live: Live, args: seq<Operand>, k: Ctx, c: Config, m: Machine, t1: Machine, pc: int)
    requires TablesOk(a, em, live) && Matches(a, em, live, c, m) && AtCall(a, em, args, k, c.regs, m, t1)
    requires |args| <= a.fn.argCount
    ensures !t1.trapped && Koopa.Values(k, args, c.regs).Some? && |Koopa.Values(k, args, c.regs).value| == |args|
    ensures EntryOk(a.env, a.top, Koopa.Values(k, args, c.regs).value, c.s.w, t1.(pc := pc))
    ensures LowFrame(a, m, t1.(pc := pc)) && SavedIn(a, Min(em.out, R_MAX), m, t1.(pc := pc))
  {
    hide StacksOk, GlobalsPlaced, MemoryOk, ValuesOk, LiveIn, FrameSafe;
    FrameLayout(a.fn);
    LowFrameMatches(a, em.stacks, c.s, c.temps, m, t1);
    GlobalsHeld(a, em.stacks, c.s, c.temps, t1);
    var t := t1.(pc := pc);
    assert forall x :: Peek(t, x) == Peek(t1, x);
    assert forall r :: Get(t, r) == Get(t1, r);
    assert forall i: nat :: ArgAt(t, i) == ArgAt(t1, i);
  }

  // ----- after the call -----

  /** Back in the caller, with what survives of its values, and the result. */
  lemma CallLeave(a: Act, code: seq<Line>, slots: Stacks, rest: seq<Inst>, em: Em, live: Live, k: Ctx, c: Config,
                  w: World, v: Word, m: Machine, t: Machine, u: Machine) returns (z: Machine)
    requires rest != [] && Before(a, code, slots, rest, em, live, c, m) && rest[0].Call? && c.At?
             && Answers(k, rest[0], c, w, v)
    requires LowFrame(a, m, t) && SavedIn(a, Min(em.out, R_MAX), m, t)
             && t.pc == m.pc + |BeforeCallLines(a.fn, em, rest[0])|
    requires CallDone(a.env, a.top, rest[0].f, |rest[0].args|, w, v, t, u)
    ensures MReaches(code, a.env, u, z) && Execute(k, rest[0], c).At?
    ensures z.pc == m.pc + |InstLines(a.fn, em, rest[0]).0|
    ensures Before(a, code, slots, rest[1..], InstLines(a.fn, em, rest[0]).1, LiveAfter(a.fn, live, em.out, rest[0]),
                   Execute(k, rest[0], c), z)
  {
    hide Before, TablesOk, Matches, Runs, LowFrame, SavedIn, Kept, Usable, LiveAfter, InstLines, CodeAt, Answers;
    var i := rest[0];
    BeforeCallMeans(a, code, slots, rest, em, live, c, m);
    CallCode(a, code, slots, rest, em, live, c, m);
    AnswersMeans(k, i, c, w, v);
    var ks := AfterCallLines(a.fn, em, i);
    if i.f.isVoid {
      z := u;
      MStays(code, a.env, u);
      AfterVoidCall(a, em, live, i, k, w, v, c, m, t, u);
    } else {
      var z1 := AfterIntCall(a, em, live, i, k, w, v, c, m, t, u);
      MatchesMeans(a, InstLines(a.fn, em, i).1, LiveAfter(a.fn, live, em.out, i), Execute(k, i, c), z1);
      RunsReaches(code, a.env, ks, u, z1);
      z := z1.(pc := u.pc + |ks|);
      PcMatches(a, InstLines(a.fn, em, i).1, LiveAfter(a.fn, live, em.out, i), Execute(k, i, c), z1, z.pc);
    }
    Advance(a, code, slots, rest, em, live, c, Execute(k, i, c), m, z);
  }

  lemma AnswersMeans(k: Ctx, i: Inst, c: Config, w: World, v: Word)
    requires c.At? && i.Call? && Answers(k, i, c, w, v)
    ensures Execute(k, i, c) == c.(pc := c.pc + 1, regs := c.regs[i.id := v], s := c.s.(w := w))
  {
  }

  // ----- whole runs -----

  /** The machine stands where the IR run halts: back at the caller with the result. */
  ghost predicate Finished(a: Act, isVoid: bool, w: World, v: Word, u: Machine)
  {
    CodegenRun.Returned(a, w, u) && (!isVoid ==> Get(u, A(0)) == v)
  }

  /** One instruction further inside its block. */
  lemma StaysInside(a: Act, p: KoopaProgram, fn: Func, slots: Stacks, rest: seq<Inst>, em: Em, live: Live, c: Config,
                    m: Machine,
                    em1: Em, live1: Live, d: Config, u: Machine)
    requires rest != [] && Inside(a, p, fn, slots, rest, em, live, c, m)
    requires Before(a, ProgramLines(p.funcs), slots, rest[1..], em1, live1, d, u)
    requires c.At? && d.At? && d.at == c.at && d.pc == c.pc + 1
    ensures Inside(a, p, fn, slots, rest[1..], em1, live1, d, u)
  {
    hide Before;
    assert fn.blocks[c.at][c.pc..][1..] == fn.blocks[c.at][c.pc + 1..];
  }

  lemma InsideMeans(a: Act, p: KoopaProgram, fn: Func, slots: Stacks, rest: seq<Inst>, em: Em, live: Live, c: Config,
                    m: Machine)
    requires Inside(a, p, fn, slots, rest, em, live, c, m)
    ensures Before(a, ProgramLines(p.funcs), slots, rest, em, live, c, m) && c.At?
    ensures c.at in fn.bbs && c.at < |fn.blocks| && c.pc <= |fn.blocks[c.at]| && rest == fn.blocks[c.at][c.pc..]
    ensures forall k :: Step(fn.blocks, k, c) == if rest == [] then Halted(FellOff) else Execute(k, rest[0], c)
  {
    hide Before;
    BeforeMeans(a, ProgramLines(p.funcs), slots, rest, em, live, c, m);
  }

  lemma StepsLeft(g: Graph, k: Ctx, c: Config, n: nat, r: Result)
    requires Steps(g, k, c, n) == Halted(r) && c.At?
    ensures n > 0 && Steps(g, k, Step(g, k, c), n - 1) == Halted(r)
    ensures Step(g, k, c).Halted? ==> Step(g, k, c) == Halted(r)
    ensures !Step(g, k, c).Spinning?
  {
    if !Step(g, k, c).At? {
      HaltedStays(g, k, Step(g, k, c), n - 1);
    }
  }

  /** The calls an IR function makes are of the kind their callee is. */
  lemma CallKind(p: KoopaProgram, f: nat, fn: Func, c: Config, rest: seq<Inst>)
    requires ProgramOk(p) && Programs.Find(p.funcs, f) == Some(fn)
    requires c.At? && c.at in fn.bbs && c.at < |fn.blocks| && c.pc < |fn.blocks[c.at]|
             && rest == fn.blocks[c.at][c.pc..]
    ensures rest[0].Call? ==> KindAgrees(p.funcs, rest[0].f)
  {
    assert rest[0] == fn.blocks[c.at][c.pc];
    assert CallsAgree(p.funcs, BlockAt(fn.blocks, c.at));
  }

  lemma ReturnFinishes(a: Act, code: seq<Line>, slots: Stacks, rest: seq<Inst>, em: Em, live: Live, k: Ctx, c: Config,
                       m: Machine,
                       isVoid: bool, r: Result, w: World, v: Word) returns (u: Machine)
    requires rest != [] && Before(a, code, slots, rest, em, live, c, m) && rest[0].Return? && c.At?
    requires Execute(k, rest[0], c) == Halted(r) && Answer(isVoid, r) == Returns(w, v)
    ensures MReaches(code, a.env, m, u) && Finished(a, isVoid, w, v, u)
  {
    hide Before, CodegenRun.Returned, Execute, MReaches;
    u := ReturnRuns(a, code, slots, rest, em, live, k, c, m);
  }

  /** A jump or branch taken, the machine is inside the target block. */
  lemma BlockGoes(a: Act, p: KoopaProgram, f: nat, fn: Func, ps: seq<nat>, rest: seq<Inst>, em: Em, live: Live,
                  k: Ctx, c: Config, m: Machine)
    returns (t: Machine)
    requires Running(a, p, f, fn, ps) && Inside(a, p, fn, Slots(f, fn, ps), rest, em, live, c, m)
    requires rest != [] && (rest[0].Jump? || rest[0].Branch?)
    ensures c.At? && Execute(k, rest[0], c).At?
    ensures MGetsTo(ProgramLines(p.funcs), a.env, m, t) && MReaches(ProgramLines(p.funcs), a.env, m, t)
    ensures var d := Execute(k, rest[0], c);
            Inside(a, p, fn, Slots(f, fn, ps), BlockAt(fn.blocks, d.at), Fresh(Slots(f, fn, ps)), map[], d, t)
  {
    hide Before, Inside, FuncOk, FnOf, VarsOf, Slots, InstLines, MReaches, MGetsTo, EnvOk, TablesOk, Matches,
         Riscv.Find;
    var code, slots := ProgramLines(p.funcs), Slots(f, fn, ps);
    InsideMeans(a, p, fn, slots, rest, em, live, c, m);
    TargetsOk(f, fn, ps, c, rest);
    var t1: Machine;
    if rest[0].Jump? {
      t1 := JumpRuns(a, code, slots, fn.blocks, rest, em, live, k, c, m);
    } else {
      t1 := BranchRuns(a, code, slots, fn.blocks, rest, em, live, k, c, m);
    }
    var d := Execute(k, rest[0], c);
    t := BlockEnter(a, p, f, fn, ps, d, t1);
    BlockCode(a, p, f, fn, ps, d.at, t1);
    CodeHas(code, t1.pc, Mark(BlockLabel(f, d.at)));
    NotOnMark(a, code, slots, rest, em, live, c, m);
    MovesOn(code, a.env, m, t1);
    MGetsToThen(code, a.env, m, t1, t);
  }

  /** The machine stands on the first line of an instruction that has any, and that is no label. */
  lemma NotOnMark(a: Act, code: seq<Line>, slots: Stacks, rest: seq<Inst>, em: Em, live: Live, c: Config, m: Machine)
    requires rest != [] && Before(a, code, slots, rest, em, live, c, m) && !rest[0].Alloc?
    ensures Going(code, m) && !code[m.pc].Mark? && InstLines(a.fn, em, rest[0]).0 != []
  {
    BeforeMeans(a, code, slots, rest, em, live, c, m);
    assert !StoresArg(rest[0]) by { NoArgStore(live, em.stacks, rest[0]); }
    hide TablesOk, Matches, BlockOk, InstOk;
    InstNoMarks(a.fn, em, rest[0]);
    HasLines(a.fn, em, rest[0]);
    var ls := InstLines(a.fn, em, rest[0]).0;
    CodeSplit(code, m.pc, ls, InstsLines(a.fn, InstLines(a.fn, em, rest[0]).1, rest[1..]).0);
    assert code[m.pc] == code[m.pc..m.pc + |ls|][0] == ls[0];
  }

  /** Only an alloc prints nothing. */
  lemma HasLines(fn: Fn, em: Em, i: Inst)
    requires !i.Alloc? && !StoresArg(i)
    ensures InstLines(fn, em, i).0 != []
  {
    hide Fetch, Locate, SaveLines, RestoreLines, ArgLines;
  }

  /** A return halts; an instruction that does not end its block moves one further, halts stuck, or spins. */
  lemma NextPc(k: Ctx, i: Inst, c: Config)
    requires c.At?
    ensures var d := Execute(k, i, c);
            && (i.Return? ==> d.Halted?)
            && (!Terminator(i) ==> (d.At? && d.at == c.at && d.pc == c.pc + 1) || d == Halted(Stuck) || d == Spinning)
  {
  }

  lemma CallAnswered(k: Ctx, i: Inst, c: Config) returns (w: World, v: Word)
    requires c.At? && i.Call? && Execute(k, i, c).At?
    ensures Answers(k, i, c, w, v)
  {
    w, v := Execute(k, i, c).s.w, Execute(k, i, c).regs[i.id];
  }

  /** How a call of a defined function came to return. */
  lemma CallReturned(p: KoopaProgram, depth: nat, callee: Callee, args: seq<Word>, w: World, w1: World, v: Word)
    returns (r: Result, n: nat)
    requires CallKoopa(p, depth, callee, args, w) == Returns(w1, v) && Programs.Find(p.funcs, callee.f).Some?
    ensures var fn := Programs.Find(p.funcs, callee.f).value;
            && depth > 0 && |args| == fn.params && fn.bbs != [] && Answer(fn.isVoid, r) == Returns(w1, v)
            && Steps(fn.blocks, Ctx(KoopaCalls(p, depth - 1), args), Initial(fn, w), n) == Halted(r)
  {
    var fn := Programs.Find(p.funcs, callee.f).value;
    var o := KoopaCalls(p, depth - 1);
    r :| HaltsWith(o, fn, args, w, r);
    forall q | HaltsWith(o, fn, args, w, q) ensures q == r {
      OneResult(fn.blocks, Ctx(o, args), Initial(fn, w), q, r);
    }
    n :| Steps(fn.blocks, Ctx(o, args), Initial(fn, w), n) == Halted(r);
  }

  /** The IR run, once its parameters are bound. */
  lemma StepsFromEntry(fn: Func, f: nat, ps: seq<nat>, k: Ctx, w: World, n: nat, r: Result) returns (j: nat)
    requires FuncOk(f, fn, ps) && |k.args| == |ps| && Steps(fn.blocks, k, Initial(fn, w), n) == Halted(r)
    ensures var c := At(fn.bbs[0], 2 * |ps|, map[], map[], Source.Store(BindParams(ps, k.args), w));
            Steps(fn.blocks, k, c, j) == Halted(r)
  {
    assert ps[..|ps|] == ps && k.args[..|ps|] == k.args;
    assert fn.bbs[0] in fn.bbs;
    LoweringTheorem.SimParams(fn.blocks, k, fn.bbs[0], ps, w, |ps|);
    hide FuncOk;
    var d := At(fn.bbs[0], 2 * |ps|, map[], map[], Source.Store(BindParams(ps, k.args), w));
    var i: nat :| Steps(fn.blocks, k, Initial(fn, w), i) == d;
    j := n;
    StepsCompose(fn.blocks, k, Initial(fn, w), i, n);
    StepsCompose(fn.blocks, k, Initial(fn, w), n, i);
    HaltedStays(fn.blocks, k, Halted(r), i);
  }

  /** The machine has stepped onto the callee's first line. */
  lemma CallEntered(code: seq<Line>, env: Env, top: int, callee: Callee, args: seq<Word>, w: World, m: Machine)
    returns (t: Machine)
    requires OnCall(code, env, top, callee, args, w, m) && Riscv.Find(code, FuncLabel(callee.f)) < |code|
    ensures MReaches(code, env, m, t) && EntryOk(env, top, args, w, t)
    ensures t.pc == Riscv.Find(code, FuncLabel(callee.f)) && Get(t, Ra) == m.pc + 1
    ensures Get(t, Sp) == Get(m, Sp) && t.mem == m.mem
  {
    t := MStep(code, env, m);
    MStepReaches(code, env, m);
    assert forall r :: r != Ra ==> Get(t, r) == Get(m, r);
    assert forall i: nat :: ArgAt(t, i) == ArgAt(m, i);
    assert forall x :: Peek(t, x) == Peek(m, x);
  }

  lemma FunctionFound(p: KoopaProgram, f: nat, ps: seq<nat>)
    requires Programs.Find(p.funcs, f).Some? && FuncOk(f, Programs.Find(p.funcs, f).value, ps)
    ensures Riscv.Find(ProgramLines(p.funcs), FuncLabel(f)) < |ProgramLines(p.funcs)|
  {
    EntryFound(p.funcs, f, ps);
    EntryStarts(f, Programs.Find(p.funcs, f).value, ps);
  }

  /** What the callee's return leaves is what the caller expects of a call. */
  lemma FinishedIsDone(f: nat, fn: Func, env: Env, top: int, callee: Callee, w: World, v: Word, m: Machine,
                       t: Machine, u: Machine)
    requires Get(t, Sp) == Get(m, Sp) && t.mem == m.mem && Get(t, Ra) == m.pc + 1
    requires Finished(ActOf(f, fn, env, top, t), callee.isVoid, w, v, u)
    ensures CallDone(env, top, callee, fn.params, w, v, m, u)
  {
    hide FnOf;
  }

  lemma ParamCount(f: nat, fn: Func, ps: seq<nat>)
    requires FuncOk(f, fn, ps)
    ensures fn.bbs != [] && |ps| == fn.params && 2 * |ps| <= |BlockAt(fn.blocks, fn.bbs[0])|
    ensures fn.bbs[0] in fn.bbs && fn.bbs[0] < |fn.blocks| && BlockAt(fn.blocks, fn.bbs[0]) == fn.blocks[fn.bbs[0]]
  {
  }

  /** A function entered at its label with its arguments in place runs to its caller if the IR call returns. */
  lemma {:induction false} FuncRuns(p: KoopaProgram, depth: nat, callee: Callee, args: seq<Word>, w: World, w1: World,
                                    v: Word,
                                    env: Env, top: int, m: Machine) returns (u: Machine)
    requires ProgramOk(p) && KindAgrees(p.funcs, callee) && env.lib == p.lib && EnvOk(env, top)
    requires Programs.Find(p.funcs, callee.f).Some? && CallKoopa(p, depth, callee, args, w) == Returns(w1, v)
    requires m.pc == Riscv.Find(ProgramLines(p.funcs), FuncLabel(callee.f)) && EntryOk(env, top, args, w, m)
    ensures MReaches(ProgramLines(p.funcs), env, m, u)
    ensures Finished(ActOf(callee.f, Programs.Find(p.funcs, callee.f).value, env, top, m), callee.isVoid, w1, v, u)
    ensures |args| == Programs.Find(p.funcs, callee.f).value.params
    decreases depth, 0, 0
  {
    hide EnvOk, EntryOk, FuncOk, FnOf, VarsOf, Slots, Before, MReaches, Finished, BindParams, InstsLines, Riscv.Find,
         CallKoopa;
    var fn := Programs.Find(p.funcs, callee.f).value;
    var r, n := CallReturned(p, depth, callee, args, w, w1, v);
    var ps :| FuncOk(callee.f, fn, ps);
    ParamCount(callee.f, fn, ps);
    var t := EnterRuns(p, callee.f, ps, env, top, args, w, m);
    var a, slots := ActOf(callee.f, fn, env, top, m), Slots(callee.f, fn, ps);
    var c := At(fn.bbs[0], 2 * |ps|, map[], map[], Source.Store(BindParams(ps, args), w));
    var k := Ctx(KoopaCalls(p, depth - 1), args);
    var j := StepsFromEntry(fn, callee.f, ps, k, w, n, r);
    assert Inside(a, p, fn, slots, AfterParams(fn, |ps|), Fresh(slots), map[], c, t);
    u := BodyRuns(p, callee.f, fn, ps, a, depth - 1, j, args, AfterParams(fn, |ps|), Fresh(slots), map[], c, t, r, w1,
                  v);
    MThen(ProgramLines(p.funcs), env, m, t, u);
  }

  /** A call that returns in the IR returns on the machine: the globals and the library calls are the same,
      a0 holds the result, and the caller's stack is untouched. */
  lemma {:induction false} CallRuns(p: KoopaProgram, depth: nat, callee: Callee, args: seq<Word>, w: World, w1: World,
                                    v: Word,
                                    env: Env, top: int, m: Machine) returns (u: Machine)
    requires ProgramOk(p) && KindAgrees(p.funcs, callee) && env.lib == p.lib && EnvOk(env, top)
    requires CallKoopa(p, depth, callee, args, w) == Returns(w1, v)
    requires OnCall(ProgramLines(p.funcs), env, top, callee, args, w, m)
    ensures MReaches(ProgramLines(p.funcs), env, m, u) && CallDone(env, top, callee, |args|, w1, v, m, u)
    decreases depth, 0, 1
  {
    hide EnvOk, EntryOk, FuncOk, MReaches, Finished, CallDone, Riscv.Find, CallKoopa;
    var code := ProgramLines(p.funcs);
    if Programs.Find(p.funcs, callee.f).None? {
      LibraryReturned(p, depth, callee, args, w, w1, v);
      u := LibraryRuns(p, env, top, callee, args, w, m);
    } else {
      var fn := Programs.Find(p.funcs, callee.f).value;
      var ps :| FuncOk(callee.f, fn, ps);
      FunctionFound(p, callee.f, ps);
      var t := CallEntered(code, env, top, callee, args, w, m);
      u := FuncRuns(p, depth, callee, args, w, w1, v, env, top, t);
      FinishedIsDone(callee.f, fn, env, top, callee, w1, v, m, t, u);
      MThen(code, env, m, t, u);
    }
  }

  lemma LibraryReturned(p: KoopaProgram, depth: nat, callee: Callee, args: seq<Word>, w: World, w1: World, v: Word)
    requires CallKoopa(p, depth, callee, args, w) == Returns(w1, v) && Programs.Find(p.funcs, callee.f).None?
    ensures |args| == p.lib.arity(callee.f)
    ensures w1 == World(w.globals, w.io + [Event(callee.f, args)]) && v == p.lib.result(w.io, callee.f, args)
  {
  }

  /** A call inside a block: to the callee and back. */
  lemma {:induction false} CallStep(p: KoopaProgram, f: nat, fn: Func, ps: seq<nat>, a: Act, depth: nat,
                                    args: seq<Word>,
                                    rest: seq<Inst>, em: Em, live: Live, c: Config, m: Machine) returns (z: Machine)
    requires ProgramOk(p) && Running(a, p, f, fn, ps) && Inside(a, p, fn, Slots(f, fn, ps), rest, em, live, c, m)
    requires rest != [] && rest[0].Call? && c.At? && Execute(Ctx(KoopaCalls(p, depth), args), rest[0], c).At?
    ensures MReaches(ProgramLines(p.funcs), a.env, m, z) && z.pc == m.pc + |InstLines(a.fn, em, rest[0]).0|
    ensures Before(a, ProgramLines(p.funcs), Slots(f, fn, ps), rest[1..], InstLines(a.fn, em, rest[0]).1,
                   LiveAfter(a.fn, live, em.out, rest[0]), Execute(Ctx(KoopaCalls(p, depth), args), rest[0], c), z)
    decreases depth, 0, 2
  {
    hide Before, Inside, ProgramOk, FuncOk, FnOf, VarsOf, Slots, InstLines, LiveAfter, Execute, MReaches, OnCall,
         CallDone, LowFrame, SavedIn, EnvOk, KindAgrees, CallKoopa;
    var code, slots, k := ProgramLines(p.funcs), Slots(f, fn, ps), Ctx(KoopaCalls(p, depth), args);
    InsideMeans(a, p, fn, slots, rest, em, live, c, m);
    CallKind(p, f, fn, c, rest);
    var w1, v := CallAnswered(k, rest[0], c);
    var t := CallArrive(a, code, slots, rest, em, live, k, c, m);
    var u := CallRuns(p, depth, rest[0].f, Koopa.Values(k, rest[0].args, c.regs).value, c.s.w, w1, v, a.env, a.top, t);
    z := CallLeave(a, code, slots, rest, em, live, k, c, w1, v, m, t, u);
    MThen(code, a.env, m, t, u);
    MThen(code, a.env, m, u, z);
  }

  /** A run of the IR that returns is followed by the machine back to the caller. */
  lemma {:induction false} BodyRuns(p: KoopaProgram, f: nat, fn: Func, ps: seq<nat>, a: Act, depth: nat, n: nat,
                                    args: seq<Word>,
                 rest: seq<Inst>, em: Em, live: Live, c: Config, m: Machine, r: Result, w: World, v: Word)
    returns (u: Machine)
    requires ProgramOk(p) && Running(a, p, f, fn, ps) && Inside(a, p, fn, Slots(f, fn, ps), rest, em, live, c, m)
    requires Steps(fn.blocks, Ctx(KoopaCalls(p, depth), args), c, n) == Halted(r)
             && Answer(fn.isVoid, r) == Returns(w, v)
    ensures MReaches(ProgramLines(p.funcs), a.env, m, u) && Finished(a, fn.isVoid, w, v, u)
    decreases depth, 1, n
  {
    hide Before, Inside, Running, ProgramOk, FuncOk, FnOf, VarsOf, Slots, Finished, InstLines, LiveAfter, Execute,
         AtBlock;
    var code, slots, k := ProgramLines(p.funcs), Slots(f, fn, ps), Ctx(KoopaCalls(p, depth), args);
    InsideMeans(a, p, fn, slots, rest, em, live, c, m);
    StepsLeft(fn.blocks, k, c, n, r);
    var d := Step(fn.blocks, k, c);
    var i := rest[0];
    NextPc(k, i, c);
    if i.Return? {
      u := ReturnFinishes(a, code, slots, rest, em, live, k, c, m, fn.isVoid, r, w, v);
    } else if i.Jump? || i.Branch? {
      var t := BlockGoes(a, p, f, fn, ps, rest, em, live, k, c, m);
      u := BodyRuns(p, f, fn, ps, a, depth, n - 1, args, BlockAt(fn.blocks, d.at), Fresh(slots), map[], d, t, r, w, v);
      MThen(code, a.env, m, t, u);
    } else {
      var em1, live1 := InstLines(a.fn, em, i).1, LiveAfter(a.fn, live, em.out, i);
      var t: Machine;
      if i.Call? {
        t := CallStep(p, f, fn, ps, a, depth, args, rest, em, live, c, m);
      } else {
        t := StepRuns(a, code, slots, rest, em, live, k, c, m);
      }
      StaysInside(a, p, fn, slots, rest, em, live, c, m, em1, live1, d, t);
      u := BodyRuns(p, f, fn, ps, a, depth, n - 1, args, rest[1..], em1, live1, d, t, r, w, v);
      MThen(code, a.env, m, t, u);
    }
  }
}
