/**
 * Running the printed code of a function: from one instruction of the IR run to the next.
 */
module CodegenRun {
  import opened Words
  import opened Source
  import opened Koopa
  import opened Riscv
  import opened Codegen
  import opened CodegenFrame
  import opened CodegenValues
  import opened CodegenInsts
  import opened CodegenCalls
  import opened CodegenLayout
  import Lowering

  // ----- what the code generator needs of a function -----

  /** Operands are values still live in this block, and slots are registered. */
  predicate InstOk(live: Live, stacks: Stacks, i: Inst)
  {
    match i
    case Alloc(_) => true
    case Load(_, src) => Placed(stacks, src)
    case Store(op, dest) => Usable(live, op) && Placed(stacks, dest)
    case Binary(_, _, l, r) => Usable(live, l) && Usable(live, r)
    case Call(_, _, args) => forall x :: x in args ==> Usable(live, x)
    case Branch(cond, _, _) => Usable(live, cond)
    case Jump(_) => true
    case Return(op) => op.Some? ==> Usable(live, op.value)
  }

  /** Every instruction uses only values its own block has left live: the locality the code generator needs. */
  predicate BlockOk(fn: Fn, em: Em, live: Live, insts: seq<Inst>)
    decreases |insts|
  {
    insts != [] ==>
      && InstOk(live, em.stacks, insts[0])
      && BlockOk(fn, InstLines(fn, em, insts[0]).1, LiveAfter(fn, live, em.out, insts[0]), insts[1..])
  }

  predicate TargetsIn(insts: seq<Inst>, bs: seq<nat>)
  {
    forall i :: 0 <= i < |insts| ==>
      && (insts[i].Branch? ==> insts[i].ifTrue in bs && insts[i].ifFalse in bs)
      && (insts[i].Jump? ==> insts[i].target in bs)
  }

  /** The instructions after the parameters' own. */
  function AfterParams(fn: Func, n: nat): seq<Inst>
    requires fn.bbs != [] && 2 * n <= |BlockAt(fn.blocks, fn.bbs[0])|
  {
    BlockAt(fn.blocks, fn.bbs[0])[2 * n..]
  }

  function Slots(f: nat, fn: Func, ps: seq<nat>): Stacks
  {
    ParamStacks(FnOf(f, fn), VarsOf(f, fn).stacks, ps)
  }

  /** The entry block starts with the parameters' own instructions. */
  predicate ParamsFirst(fn: Func, ps: seq<nat>)
  {
    && fn.bbs != [] && |ps| == fn.params && Distinct(ps)
    && Lowering.ParamInsts(ps) <= BlockAt(fn.blocks, fn.bbs[0])
    && |Lowering.ParamInsts(ps)| == 2 * |ps|
  }

  /** Jumps go to listed blocks, never back to the entry. */
  predicate JumpsInside(fn: Func)
    requires fn.bbs != []
  {
    fn.bbs[0] !in fn.bbs[1..] && forall b :: b in fn.bbs ==> b < |fn.blocks| && TargetsIn(fn.blocks[b], fn.bbs[1..])
  }

  /** Every block is local. */
  ghost predicate BlocksLocal(f: nat, fn: Func, ps: seq<nat>)
    requires ParamsFirst(fn, ps)
  {
    && BlockOk(FnOf(f, fn), Fresh(Slots(f, fn, ps)), map[], AfterParams(fn, |ps|))
    && forall b :: b in fn.bbs[1..] ==> BlockOk(FnOf(f, fn), Fresh(Slots(f, fn, ps)), map[], BlockAt(fn.blocks, b))
  }

  /** No alloc takes a parameter's slot again, or a global's. */
  ghost predicate AllocsApart(fn: Func, ps: seq<nat>)
    requires ParamsFirst(fn, ps)
  {
    && (forall i: nat :: i < |ps| ==>
          !Allocates(AfterParams(fn, |ps|) + AllInsts(fn.blocks, fn.bbs[1..]), ParamSlot(ps, i)))
    && (forall g :: !Allocates(AllInsts(fn.blocks, fn.bbs), Of(Global(g))))
  }

  /** A function the code generator handles. */
  ghost predicate FuncOk(f: nat, fn: Func, ps: seq<nat>)
  {
    && ParamsFirst(fn, ps) && JumpsInside(fn) && FrameSafe(FnOf(f, fn))
    && BlocksLocal(f, fn, ps) && AllocsApart(fn, ps)
  }

  // ----- one instruction -----

  /** What the machine holds when the IR run stands before instructions `rest` of a block. */
  ghost predicate Before(a: Act, code: seq<Line>, slots: Stacks, rest: seq<Inst>, em: Em, live: Live, c: Config,
                         m: Machine)
  {
    && CodeAt(code, m.pc, InstsLines(a.fn, em, rest).0)
    && em.stacks == slots && BlockOk(a.fn, em, live, rest)
    && em.out + CountVals(rest) <= a.fn.valCount && CountArgs(rest) <= a.fn.argCount
    && TablesOk(a, em, live) && Matches(a, em, live, c, m)
  }

  lemma CodeSplit(code: seq<Line>, p: int, ls: seq<Line>, ks: seq<Line>)
    requires CodeAt(code, p, ls + ks)
    ensures CodeAt(code, p, ls) && CodeAt(code, p + |ls|, ks)
  {
    assert code[p..p + |ls|] == code[p..p + |ls + ks|][..|ls|];
    assert code[p + |ls|..p + |ls| + |ks|] == code[p..p + |ls + ks|][|ls|..];
  }

  lemma PcMatches(a: Act, em: Em, live: Live, c: Config, m: Machine, p: int)
    requires Matches(a, em, live, c, m)
    ensures Matches(a, em, live, c, m.(pc := p))
  {
    assert forall r :: Get(m.(pc := p), r) == Get(m, r);
    assert forall x :: Peek(m.(pc := p), x) == Peek(m, x);
  }

  /** The straight-line instructions other than calls. */
  lemma InstSim(a: Act, em: Em, live: Live, i: Inst, k: Ctx, c: Config, m: Machine) returns (t: Machine)
    requires TablesOk(a, em, live) && Matches(a, em, live, c, m) && InstOk(live, em.stacks, i)
    requires !Terminator(i) && !i.Call? && (IntTyped(i) ==> em.out < a.fn.valCount)
    requires Execute(k, i, c).At?
    ensures var (ls, em1) := InstLines(a.fn, em, i);
            var live1 := LiveAfter(a.fn, live, em.out, i);
            Runs(a.env, ls, m, t) && TablesOk(a, em1, live1) && Matches(a, em1, live1, Execute(k, i, c), t)
  {
    hide Runs, TablesOk, Matches;
    match i
    case Alloc(s) =>
      t := m;
      RunsNone(a.env, m);
      AllocSim(a, em, live, s, k, c, m);
    case Load(id, src) => t := LoadSim(a, em, live, id, src, k, c, m);
    case Store(_, _) => t := StoreSim(a, em, live, i, k, c, m);
    case Binary(_, _, _, _) => t := BinarySim(a, em, live, i, k, c, m);
  }

  /** The rest of the block after instruction rest[0], whose code the machine has run to u. */
  lemma Advance(a: Act, code: seq<Line>, slots: Stacks, rest: seq<Inst>, em: Em, live: Live, c: Config, d: Config,
                m: Machine, u: Machine)
    requires rest != [] && Before(a, code, slots, rest, em, live, c, m)
    requires var (ls, em1) := InstLines(a.fn, em, rest[0]);
             var live1 := LiveAfter(a.fn, live, em.out, rest[0]);
             TablesOk(a, em1, live1) && Matches(a, em1, live1, d, u) && u.pc == m.pc + |ls|
    ensures var em1 := InstLines(a.fn, em, rest[0]).1;
            Before(a, code, slots, rest[1..], em1, LiveAfter(a.fn, live, em.out, rest[0]), d, u)
  {
    hide InstLines, Matches, TablesOk, InstOk, LiveAfter, CountVals, CountArgs;
    var (ls, em1) := InstLines(a.fn, em, rest[0]);
    CodeSplit(code, m.pc, ls, InstsLines(a.fn, em1, rest[1..]).0);
    CountsHead(rest);
    InstEm(a.fn, em, rest[0]);
    assert !StoresArg(rest[0]) by { NoArgStore(live, em.stacks, rest[0]); }
  }

  lemma NoArgStore(live: Live, stacks: Stacks, i: Inst)
    requires InstOk(live, stacks, i)
    ensures !StoresArg(i)
  {
  }

  /** One straight-line step of the IR run, other than a call. */
  lemma StepRuns(a: Act, code: seq<Line>, slots: Stacks, rest: seq<Inst>, em: Em, live: Live, k: Ctx, c: Config,
                 m: Machine)
    returns (u: Machine)
    requires rest != [] && Before(a, code, slots, rest, em, live, c, m)
    requires !Terminator(rest[0]) && !rest[0].Call? && Execute(k, rest[0], c).At?
    ensures var em1 := InstLines(a.fn, em, rest[0]).1;
            && MReaches(code, a.env, m, u) && u.pc == m.pc + |InstLines(a.fn, em, rest[0]).0|
            && Before(a, code, slots, rest[1..], em1, LiveAfter(a.fn, live, em.out, rest[0]), Execute(k, rest[0], c), u)
  {
    var (ls, em1) := InstLines(a.fn, em, rest[0]);
    CountsHead(rest);
    CodeSplit(code, m.pc, ls, InstsLines(a.fn, em1, rest[1..]).0);
    var t := InstSim(a, em, live, rest[0], k, c, m);
    u := t.(pc := m.pc + |ls|);
    RunsReaches(code, a.env, ls, m, t);
    var live1 := LiveAfter(a.fn, live, em.out, rest[0]);
    PcMatches(a, em1, live1, Execute(k, rest[0], c), t, u.pc);
    hide InstsLines, BlockOk;
    Advance(a, code, slots, rest, em, live, c, Execute(k, rest[0], c), m, u);
  }

  // ----- control -----

  lemma LineStep(code: seq<Line>, env: Env, m: Machine, l: Line)
    requires CodeAt(code, m.pc, [l]) && !m.trapped
    ensures MReaches(code, env, m, MStep(code, env, m)) && code[m.pc] == l && 0 <= m.pc < |code|
  {
    assert code[m.pc] == code[m.pc..m.pc + 1][0];
    MStepReaches(code, env, m);
  }

  /** What standing at the start of block b means: its label's line, and nothing live. */
  ghost predicate AtBlock(a: Act, code: seq<Line>, slots: Stacks, g: Graph, c: Config, m: Machine)
  {
    && c.At? && c.pc == 0
    && m.pc == Riscv.Find(code, BlockLabel(a.fn.f, c.at))
    && TablesOk(a, Fresh(slots), map[]) && Matches(a, Fresh(slots), map[], c, m)
  }

  lemma ForgetValues(a: Act, em: Em, live: Live, c: Config, d: Config, m: Machine, p: int)
    requires TablesOk(a, em, live) && Matches(a, em, live, c, m) && d.At? && d == c.(at := d.at, pc := d.pc)
    ensures TablesOk(a, Fresh(em.stacks), map[]) && Matches(a, Fresh(em.stacks), map[], d, m.(pc := p))
  {
    PcMatches(a, em, live, c, m, p);
  }

  /** A jump goes to the label of its target. */
  lemma JumpRuns(a: Act, code: seq<Line>, slots: Stacks, g: Graph, rest: seq<Inst>, em: Em, live: Live, k: Ctx,
                 c: Config, m: Machine)
    returns (u: Machine)
    requires rest != [] && Before(a, code, slots, rest, em, live, c, m) && rest[0].Jump?
    ensures MReaches(code, a.env, m, u) && AtBlock(a, code, slots, g, Execute(k, rest[0], c), u)
  {
    var l := J(BlockLabel(a.fn.f, rest[0].target));
    CodeSplit(code, m.pc, [l], InstsLines(a.fn, em, rest[1..]).0);
    LineStep(code, a.env, m, l);
    u := MStep(code, a.env, m);
    ForgetValues(a, em, live, c, Execute(k, rest[0], c), m, u.pc);
  }

  /** A branch goes to the label of the side the condition picks. */
  lemma BranchRuns(a: Act, code: seq<Line>, slots: Stacks, g: Graph, rest: seq<Inst>, em: Em, live: Live, k: Ctx,
                   c: Config, m: Machine)
    returns (u: Machine)
    requires rest != [] && Before(a, code, slots, rest, em, live, c, m) && rest[0].Branch?
    ensures Execute(k, rest[0], c).At?
    ensures MReaches(code, a.env, m, u) && AtBlock(a, code, slots, g, Execute(k, rest[0], c), u)
  {
    hide Before;
    BeforeMeans(a, code, slots, rest, em, live, c, m);
    var t := BranchGoes(a, code, slots, rest, em, live, k, c, m);
    u := t.(pc := Riscv.Find(code, BlockLabel(a.fn.f, Execute(k, rest[0], c).at)));
    ForgetValues(a, em, live, c, Execute(k, rest[0], c), t, u.pc);
  }

  lemma BeforeMeans(a: Act, code: seq<Line>, slots: Stacks, rest: seq<Inst>, em: Em, live: Live, c: Config, m: Machine)
    requires Before(a, code, slots, rest, em, live, c, m)
    ensures c.At? && em.stacks == slots && TablesOk(a, em, live) && Matches(a, em, live, c, m) && !m.trapped
  {
  }

  lemma BranchGoes(a: Act, code: seq<Line>, slots: Stacks, rest: seq<Inst>, em: Em, live: Live, k: Ctx, c: Config,
                   m: Machine)
    returns (t: Machine)
    requires rest != [] && Before(a, code, slots, rest, em, live, c, m) && rest[0].Branch?
    ensures c.At? && Execute(k, rest[0], c).At? && Matches(a, em, live, c, t)
    ensures MReaches(code, a.env, m, t.(pc := Riscv.Find(code, BlockLabel(a.fn.f, Execute(k, rest[0], c).at))))
  {
    hide Before, Matches, TablesOk, Usable, Fetch, Runs, Riscv.Find, MReaches, CodeAt;
    BeforeMeans(a, code, slots, rest, em, live, c, m);
    var o := Fetch(a.fn, em, 0, rest[0].cond);
    var bl, jl := Bnez(o.reg, BlockLabel(a.fn.f, rest[0].ifTrue)), J(BlockLabel(a.fn.f, rest[0].ifFalse));
    BranchCode(a, code, slots, rest, em, live, c, m, bl, jl);
    t := CondFetched(a, em, live, rest[0], k, c, m);
    var t1 := t.(pc := m.pc + |o.lines|);
    RunsReaches(code, a.env, o.lines, m, t);
    var u := BranchTaken(code, a.env, t1, bl, jl);
    assert Get(t1, o.reg) == Get(t, o.reg);
    MThen(code, a.env, m, t1, u);
  }

  lemma BranchCode(a: Act, code: seq<Line>, slots: Stacks, rest: seq<Inst>, em: Em, live: Live, c: Config, m: Machine,
                   bl: Line, jl: Line)
    requires rest != [] && Before(a, code, slots, rest, em, live, c, m) && rest[0].Branch?
    requires var o := Fetch(a.fn, em, 0, rest[0].cond);
             bl == Bnez(o.reg, BlockLabel(a.fn.f, rest[0].ifTrue)) && jl == J(BlockLabel(a.fn.f, rest[0].ifFalse))
    ensures var n := |Fetch(a.fn, em, 0, rest[0].cond).lines|;
            && CodeAt(code, m.pc, Fetch(a.fn, em, 0, rest[0].cond).lines)
            && CodeAt(code, m.pc + n, [bl]) && CodeAt(code, m.pc + n + 1, [jl]) && Usable(live, rest[0].cond)
  {
    hide Matches, TablesOk, Fetch, Usable;
    var o := Fetch(a.fn, em, 0, rest[0].cond);
    var tail := InstsLines(a.fn, InstLines(a.fn, em, rest[0]).1, rest[1..]).0;
    assert InstsLines(a.fn, em, rest).0 == o.lines + ([bl] + ([jl] + tail));
    CodeSplit(code, m.pc, o.lines, [bl] + ([jl] + tail));
    CodeSplit(code, m.pc + |o.lines|, [bl], [jl] + tail);
    CodeSplit(code, m.pc + |o.lines| + 1, [jl], tail);
  }

  /** `bnez` followed by `j`. */
  lemma BranchTaken(code: seq<Line>, env: Env, m: Machine, bl: Line, jl: Line) returns (u: Machine)
    requires bl.Bnez? && jl.J? && CodeAt(code, m.pc, [bl]) && CodeAt(code, m.pc + 1, [jl]) && !m.trapped
    ensures MReaches(code, env, m, u)
    ensures u == m.(pc := Riscv.Find(code, if Get(m, bl.rs) != 0 then bl.l else jl.l))
  {
    LineStep(code, env, m, bl);
    u := MStep(code, env, m);
    if Get(m, bl.rs) == 0 {
      var t := u;
      LineStep(code, env, t, jl);
      u := MStep(code, env, t);
      MThen(code, env, m, t, u);
    }
  }

  lemma CondFetched(a: Act, em: Em, live: Live, i: Inst, k: Ctx, c: Config, m: Machine) returns (t: Machine)
    requires TablesOk(a, em, live) && Matches(a, em, live, c, m) && i.Branch? && Usable(live, i.cond)
    ensures Runs(a.env, Fetch(a.fn, em, 0, i.cond).lines, m, t) && Matches(a, em, live, c, t) && !t.trapped
    ensures var v := Koopa.Value(k, i.cond, c.regs); v.Some? && Get(t, Fetch(a.fn, em, 0, i.cond).reg) == v.value
  {
    hide Runs, Agree, MemoryOk, StacksOk, GlobalsPlaced;
    t := FetchWorks(a, em, live, 0, i.cond, k, c.regs, m);
    SameMemory(a, em, live, c, m, t);
  }

  /** What a caller gets back: control after its call, its stack and memory, the world, and the result in a0. */
  ghost predicate Returned(a: Act, w: World, m: Machine)
  {
    && m.pc == a.ra && !m.trapped && Get(m, Sp) == a.base + a.fn.Size()
    && (forall x :: a.Above() <= x < a.top ==> Peek(m, x) == (if x in a.caller then a.caller[x] else 0))
    && m.io == w.io && forall g :: g in w.globals ==> Peek(m, a.env.address(g)) == w.globals[g]
  }

  /** The epilogue restores the return address and the stack pointer. */
  lemma EpilogueRuns(a: Act, code: seq<Line>, em: Em, live: Live, c: Config, m: Machine) returns (u: Machine)
    requires CodeAt(code, m.pc, Epilogue(a.fn)) && TablesOk(a, em, live) && Matches(a, em, live, c, m)
    ensures MReaches(code, a.env, m, u) && Returned(a, c.s.w, u) && Get(u, A(0)) == Get(m, A(0))
  {
    hide TablesOk, Matches, Returned;
    var l1, l2 := Lw(Ra, a.fn.Size() - 4, Sp), AddSp(a.fn.Size());
    assert Epilogue(a.fn) == [l1, l2] + [Ret];
    CodeSplit(code, m.pc, [l1, l2], [Ret]);
    var t1 := FrameLeft(a, em, live, c, m);
    RunsReaches(code, a.env, [l1, l2], m, t1);
    var t := t1.(pc := m.pc + 2);
    LineStep(code, a.env, t, Ret);
    u := MStep(code, a.env, t);
    MThen(code, a.env, m, t, u);
    assert u == t1.(pc := a.ra);
    assert Get(u, A(0)) == Get(t1, A(0));
  }

  /** Return address and stack pointer are the caller's again. */
  lemma FrameLeft(a: Act, em: Em, live: Live, c: Config, m: Machine) returns (t: Machine)
    requires TablesOk(a, em, live) && Matches(a, em, live, c, m)
    ensures Runs(a.env, [Lw(Ra, a.fn.Size() - 4, Sp), AddSp(a.fn.Size())], m, t) && !t.trapped && Get(t, Ra) == a.ra
    ensures Returned(a, c.s.w, t.(pc := a.ra)) && Get(t, A(0)) == Get(m, A(0))
  {
    hide Runs, StacksOk, GlobalsPlaced;
    var l1, l2 := Lw(Ra, a.fn.Size() - 4, Sp), AddSp(a.fn.Size());
    var t1 := Set(m, Ra, a.ra);
    t := Set(t1, Sp, a.base + a.fn.Size());
    RaAligned(a);
    RunsOne(a.env, l1, m);
    RunsOne(a.env, l2, t1);
    assert [l1] + [l2] == [l1, l2];
    RunsThen(a.env, [l1], [l2], m, t1, t);
    GlobalsMatch(a, em, live, c, m);
    assert forall x :: Peek(t.(pc := a.ra), x) == Peek(m, x);
  }

  lemma RaAligned(a: Act)
    requires Aligned(a.base)
    ensures Aligned(a.base + (a.fn.Size() - 4))
  {
  }

  lemma GlobalsMatch(a: Act, em: Em, live: Live, c: Config, m: Machine)
    requires TablesOk(a, em, live) && Matches(a, em, live, c, m)
    ensures forall g :: g in c.s.w.globals ==> Peek(m, a.env.address(g)) == c.s.w.globals[g]
  {
    GlobalsHeld(a, em.stacks, c.s, c.temps, m);
  }

  lemma GlobalsHeld(a: Act, stacks: Stacks, s: Source.Store, temps: Temps, m: Machine)
    requires StacksOk(a, stacks) && MemoryOk(a, stacks, s, temps, m)
    ensures m.io == s.w.io
    ensures forall g :: g in s.w.globals ==> Peek(m, a.env.address(g)) == s.w.globals[g]
  {
    forall g | g in s.w.globals ensures Peek(m, a.env.address(g)) == s.w.globals[g] {
      assert SlotValue(s, temps, Of(Global(g))).Some?;
      assert Of(Global(g)) !in stacks;
    }
  }

  /** A return hands the caller the value in a0 and everything the caller owns. */
  lemma ReturnRuns(a: Act, code: seq<Line>, slots: Stacks, rest: seq<Inst>, em: Em, live: Live, k: Ctx, c: Config,
                   m: Machine)
    returns (u: Machine)
    requires rest != [] && Before(a, code, slots, rest, em, live, c, m) && rest[0].Return?
    ensures MReaches(code, a.env, m, u) && Returned(a, c.s.w, u)
    ensures rest[0].ret.None? ==> Execute(k, rest[0], c) == Halted(Done(None, c.s.w))
    ensures rest[0].ret.Some? ==> Execute(k, rest[0], c) == Halted(Done(Some(Wrap(Get(u, A(0)))), c.s.w))
                                  && Wrap(Get(u, A(0))) == Get(u, A(0))
  {
    assert rest[0].ret.Some? ==> Usable(live, rest[0].ret.value);
    hide TablesOk, BlockOk, Usable, Fetch;
    CodeSplit(code, m.pc, InstLines(a.fn, em, rest[0]).0,
              InstsLines(a.fn, InstLines(a.fn, em, rest[0]).1, rest[1..]).0);
    if rest[0].ret.None? {
      u := EpilogueRuns(a, code, em, live, c, m);
    } else {
      var op := rest[0].ret.value;
      var o := Fetch(a.fn, em, 0, op);
      var ls := o.lines + [Mv(A(0), o.reg)];
      CodeSplit(code, m.pc, ls, Epilogue(a.fn));
      var t1 := ResultMoved(a, em, live, op, k, c, m);
      RunsReaches(code, a.env, ls, m, t1);
      var t := t1.(pc := m.pc + |ls|);
      assert Get(t, A(0)) == Get(t1, A(0));
      PcMatches(a, Fresh(em.stacks), map[], c, t1, t.pc);
      assert TablesOk(a, Fresh(em.stacks), map[]) by { ForgetValues(a, em, live, c, c, m, m.pc); }
      u := EpilogueRuns(a, code, Fresh(em.stacks), map[], c, t);
      MThen(code, a.env, m, t, u);
    }
  }

  lemma ResultMoved(a: Act, em: Em, live: Live, op: Operand, k: Ctx, c: Config, m: Machine) returns (t: Machine)
    requires TablesOk(a, em, live) && Matches(a, em, live, c, m) && Usable(live, op)
    ensures var o := Fetch(a.fn, em, 0, op);
            Runs(a.env, o.lines + [Mv(A(0), o.reg)], m, t) && Matches(a, Fresh(em.stacks), map[], c, t)
    ensures var v := Koopa.Value(k, op, c.regs); v.Some? && Get(t, A(0)) == v.value && !t.trapped
  {
    hide Runs, Agree, MemoryOk, StacksOk, GlobalsPlaced;
    var o := Fetch(a.fn, em, 0, op);
    var t1 := FetchWorks(a, em, live, 0, op, k, c.regs, m);
    SameMemory(a, em, live, c, m, t1);
    t := Set(t1, A(0), Get(t1, o.reg));
    RunsOne(a.env, Mv(A(0), o.reg), t1);
    RunsThen(a.env, o.lines, [Mv(A(0), o.reg)], m, t1, t);
    assert forall x :: Peek(t, x) == Peek(t1, x);
    MemorySame(a, em.stacks, c.s, c.temps, t1, t, 0);
  }
}
