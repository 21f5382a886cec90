/**
 * Code generation preserves divergence: what does not end in the IR does not end on the machine.
 */
module CodegenForever {
  import opened Words
  import opened Source
  import opened Koopa
  import opened Riscv
  import opened Codegen
  import opened CodegenValues
  import opened CodegenCalls
  import opened CodegenRun
  import opened CodegenEntry
  import opened CodegenTheorem
  import opened Programs
  import LoweringTheorem

  /** How a call of a defined function came not to return. */
  lemma CallHangs(p: KoopaProgram, depth: nat, callee: Callee, args: seq<Word>, w: World)
    requires CallKoopa(p, depth, callee, args, w) == Hangs
    ensures Programs.Find(p.funcs, callee.f).Some?
    ensures var fn := Programs.Find(p.funcs, callee.f).value;
            && |args| == fn.params && fn.bbs != []
            && (depth > 0 ==> NeverHalts(fn.blocks, Ctx(KoopaCalls(p, depth - 1), args), Initial(fn, w)))
  {
    var fn := Programs.Find(p.funcs, callee.f).value;
    if depth > 0 {
      var k := Ctx(KoopaCalls(p, depth - 1), args);
      forall n: nat ensures Lasts(fn.blocks, k, Initial(fn, w), n) {
        var d := Steps(fn.blocks, k, Initial(fn, w), n);
        if d.Halted? {
          assert HaltsWith(k.o, fn, args, w, d.result);
          HaltsReturn(p, depth, callee, args, w, fn, d.result);
        }
      }
    }
  }

  /** A body that halts does not make its call hang. */
  lemma HaltsReturn(p: KoopaProgram, depth: nat, callee: Callee, args: seq<Word>, w: World, fn: Func, r: Result)
    requires Programs.Find(p.funcs, callee.f) == Some(fn) && |args| == fn.params && fn.bbs != [] && depth > 0
    requires HaltsWith(KoopaCalls(p, depth - 1), fn, args, w, r)
    ensures CallKoopa(p, depth, callee, args, w) != Hangs
  {
  }

  /** The IR run goes on once its parameters are bound. */
  lemma ForeverFromEntry(fn: Func, f: nat, ps: seq<nat>, k: Ctx, w: World)
    requires FuncOk(f, fn, ps) && |k.args| == |ps| && NeverHalts(fn.blocks, k, Initial(fn, w))
    ensures NeverHalts(fn.blocks, k, At(fn.bbs[0], 2 * |ps|, map[], map[], Source.Store(BindParams(ps, k.args), w)))
  {
    assert ps[..|ps|] == ps && k.args[..|ps|] == k.args;
    assert fn.bbs[0] in fn.bbs;
    LoweringTheorem.SimParams(fn.blocks, k, fn.bbs[0], ps, w, |ps|);
    NeverHaltsOn(fn.blocks, k, Initial(fn, w), At(fn.bbs[0], 2 * |ps|, map[], map[],
                                                  Source.Store(BindParams(ps, k.args), w)));
  }

  /** A call that hangs hangs in its callee. */
  lemma HangingCall(k: Ctx, i: Inst, c: Config)
    requires c.At? && i.Call? && Execute(k, i, c) == Spinning
    ensures var vs := Koopa.Values(k, i.args, c.regs); vs.Some? && k.o(c.s.w, i.f, vs.value) == Hangs
  {
  }

  lemma OnlyCallsSpin(k: Ctx, i: Inst, c: Config)
    requires c.At? && Execute(k, i, c) == Spinning
    ensures i.Call?
  {
  }

  lemma PcMoved(code: seq<Line>, env: Env, m: Machine, t: Machine, n: nat)
    requires MReaches(code, env, m, t) && t.pc > m.pc && n > 0 && MLasts(code, env, t, n - 1)
    ensures MLasts(code, env, m, n)
  {
    MovesOn(code, env, m, t);
    MGetsToLasts(code, env, m, t, n);
  }

  /** An IR run that never halts keeps the machine going, for as many steps as calls may still nest, and one more. */
  lemma {:induction false} BodyLasts(p: KoopaProgram, f: nat, fn: Func, ps: seq<nat>, a: Act, depth: nat, n: nat,
                                     args: seq<Word>,
                                     rest: seq<Inst>, em: Em, live: Live, c: Config, m: Machine)
    requires ProgramOk(p) && Running(a, p, f, fn, ps) && Inside(a, p, fn, Slots(f, fn, ps), rest, em, live, c, m)
    requires NeverHalts(fn.blocks, Ctx(KoopaCalls(p, depth), args), c) && n <= depth + 1
    ensures MLasts(ProgramLines(p.funcs), a.env, m, n)
    decreases depth, 1, n, |rest|
  {
    hide Before, Inside, Running, ProgramOk, FuncOk, FnOf, VarsOf, Slots, InstLines, LiveAfter, Execute, NeverHalts,
         MLasts, MReaches, MGetsTo, Going;
    var code, slots, k := ProgramLines(p.funcs), Slots(f, fn, ps), Ctx(KoopaCalls(p, depth), args);
    InsideMeans(a, p, fn, slots, rest, em, live, c, m);
    StepReaches(fn.blocks, k, c);
    var d := Step(fn.blocks, k, c);
    NeverHaltsOn(fn.blocks, k, c, d);
    var i := rest[0];
    NextPc(k, i, c);
    if d.Spinning? { OnlyCallsSpin(k, i, c); }
    if i.Alloc? {
      BodyContinues(p, f, fn, ps, a, depth, n, args, rest, em, live, c, m);
    } else {
      NotOnMark(a, code, slots, rest, em, live, c, m);
      if n == 0 {
        LastsNow(code, a.env, m);
      } else if i.Jump? || i.Branch? {
        var t := BlockGoes(a, p, f, fn, ps, rest, em, live, k, c, m);
        BodyLasts(p, f, fn, ps, a, depth, n - 1, args, BlockAt(fn.blocks, d.at), Fresh(slots), map[], d, t);
        MGetsToLasts(code, a.env, m, t, n);
      } else if d.Spinning? {
        var t := CallArrive(a, code, slots, rest, em, live, k, c, m);
        HangingCall(k, i, c);
        CallLasts(p, depth, i.f, Koopa.Values(k, i.args, c.regs).value, c.s.w, a.env, a.top, t)
          by { RunningMeans(a, p, f, fn, ps); }
        MLastsLess(code, a.env, t, n, depth + 1);
        MThenLasts(code, a.env, m, t, n);
      } else {
        BodyContinues(p, f, fn, ps, a, depth, n, args, rest, em, live, c, m);
      }
    }
  }

  lemma LastsNow(code: seq<Line>, env: Env, m: Machine)
    requires Going(code, m)
    ensures MLasts(code, env, m, 0)
  {
    assert MSteps(code, env, m, 0) == m;
  }

  lemma RunningMeans(a: Act, p: KoopaProgram, f: nat, fn: Func, ps: seq<nat>)
    requires Running(a, p, f, fn, ps)
    ensures a.env.lib == p.lib && EnvOk(a.env, a.top)
  {
  }

  /** One instruction on: an alloc prints nothing, any other takes the machine at least one line further. */
  lemma {:induction false} BodyContinues(p: KoopaProgram, f: nat, fn: Func, ps: seq<nat>, a: Act, depth: nat, n: nat,
                                         args: seq<Word>,
                                         rest: seq<Inst>, em: Em, live: Live, c: Config, m: Machine)
    requires ProgramOk(p) && Running(a, p, f, fn, ps) && Inside(a, p, fn, Slots(f, fn, ps), rest, em, live, c, m)
    requires NeverHalts(fn.blocks, Ctx(KoopaCalls(p, depth), args), c) && n <= depth + 1
    requires rest != [] && !Terminator(rest[0]) && (n > 0 || rest[0].Alloc?)
    requires Step(fn.blocks, Ctx(KoopaCalls(p, depth), args), c).At?
    ensures MLasts(ProgramLines(p.funcs), a.env, m, n)
    decreases depth, 1, n, |rest|, 0
  {
    hide Before, Inside, Running, ProgramOk, FuncOk, FnOf, VarsOf, Slots, InstLines, LiveAfter, Execute, NeverHalts,
         MLasts, MReaches, MGetsTo, Going;
    var code, slots, k := ProgramLines(p.funcs), Slots(f, fn, ps), Ctx(KoopaCalls(p, depth), args);
    InsideMeans(a, p, fn, slots, rest, em, live, c, m);
    StepReaches(fn.blocks, k, c);
    var d := Step(fn.blocks, k, c);
    NeverHaltsOn(fn.blocks, k, c, d);
    var i := rest[0];
    NextPc(k, i, c);
    var em1, live1 := InstLines(a.fn, em, i).1, LiveAfter(a.fn, live, em.out, i);
    var t: Machine;
    if i.Call? {
      t := CallStep(p, f, fn, ps, a, depth, args, rest, em, live, c, m);
    } else {
      t := StepRuns(a, code, slots, rest, em, live, k, c, m);
    }
    StaysInside(a, p, fn, slots, rest, em, live, c, m, em1, live1, d, t);
    if i.Alloc? {
      BodyLasts(p, f, fn, ps, a, depth, n, args, rest[1..], em1, live1, d, t);
      MThenLasts(code, a.env, m, t, n);
    } else {
      NotOnMark(a, code, slots, rest, em, live, c, m);
      BodyLasts(p, f, fn, ps, a, depth, n - 1, args, rest[1..], em1, live1, d, t);
      PcMoved(code, a.env, m, t, n);
    }
  }

  /** A function entered at its label keeps the machine going for `depth` steps if its call hangs. */
  lemma {:induction false} FuncLasts(p: KoopaProgram, depth: nat, callee: Callee, args: seq<Word>, w: World, env: Env,
                                     top: int, m: Machine)
    requires ProgramOk(p) && env.lib == p.lib && EnvOk(env, top)
    requires CallKoopa(p, depth, callee, args, w) == Hangs && Programs.Find(p.funcs, callee.f).Some?
    requires m.pc == Riscv.Find(ProgramLines(p.funcs), FuncLabel(callee.f)) && EntryOk(env, top, args, w, m)
    ensures MLasts(ProgramLines(p.funcs), env, m, depth)
    decreases depth, 0, 0, 0
  {
    hide EnvOk, FuncOk, FnOf, VarsOf, Slots, Before, MReaches, MLasts, NeverHalts, BindParams, InstsLines, Riscv.Find,
         CallKoopa;
    CallHangs(p, depth, callee, args, w);
    var fn := Programs.Find(p.funcs, callee.f).value;
    var ps :| FuncOk(callee.f, fn, ps);
    ParamCount(callee.f, fn, ps);
    FunctionFound(p, callee.f, ps);
    if depth == 0 {
      LastsNow(ProgramLines(p.funcs), env, m);
    } else {
      hide EntryOk;
      var t := EnterRuns(p, callee.f, ps, env, top, args, w, m);
      var a, slots := ActOf(callee.f, fn, env, top, m), Slots(callee.f, fn, ps);
      var c := At(fn.bbs[0], 2 * |ps|, map[], map[], Source.Store(BindParams(ps, args), w));
      var k := Ctx(KoopaCalls(p, depth - 1), args);
      ForeverFromEntry(fn, callee.f, ps, k, w);
      assert Inside(a, p, fn, slots, AfterParams(fn, |ps|), Fresh(slots), map[], c, t);
      BodyLasts(p, callee.f, fn, ps, a, depth - 1, depth, args, AfterParams(fn, |ps|), Fresh(slots), map[], c, t);
      MThenLasts(ProgramLines(p.funcs), env, m, t, depth);
    }
  }

  /** The call itself takes one step. */
  lemma {:induction false} CallLasts(p: KoopaProgram, depth: nat, callee: Callee, args: seq<Word>, w: World, env: Env,
                                     top: int, m: Machine)
    requires ProgramOk(p) && env.lib == p.lib && EnvOk(env, top)
    requires CallKoopa(p, depth, callee, args, w) == Hangs
    requires OnCall(ProgramLines(p.funcs), env, top, callee, args, w, m)
    ensures MLasts(ProgramLines(p.funcs), env, m, depth + 1)
    decreases depth, 0, 0, 1
  {
    hide EnvOk, EntryOk, FuncOk, MReaches, MLasts, Riscv.Find, CallKoopa;
    CallHangs(p, depth, callee, args, w);
    var code := ProgramLines(p.funcs);
    var fn := Programs.Find(p.funcs, callee.f).value;
    var ps :| FuncOk(callee.f, fn, ps);
    FunctionFound(p, callee.f, ps);
    var t := CallEntered(code, env, top, callee, args, w, m);
    FuncLasts(p, depth, callee, args, w, env, top, t);
    assert m != t by {
      EntryFound(p.funcs, callee.f, ps);
      EntryStarts(callee.f, fn, ps);
      assert code[t.pc] == Mark(FuncLabel(callee.f));
    }
    MovesOn(code, env, m, t);
    MGetsToLasts(code, env, m, t, depth + 1);
  }
}
