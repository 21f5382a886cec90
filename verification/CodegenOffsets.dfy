/**
 * Immediates: when every offset printed fits the 12 bits an instruction has for it.
 */
module CodegenOffsets {
  import opened Source
  import opened Koopa
  import opened Riscv
  import opened Codegen
  import opened CodegenFrame
  import opened CodegenValues
  import opened CodegenInsts
  import opened CodegenCalls
  import opened CodegenLayout
  import opened CodegenRun
  import opened CodegenEntry

  /** A signed 12-bit immediate. */
  predicate Short(x: int) { -2048 <= x < 2048 }

  predicate Fits(l: Line)
  {
    match l
    case Lw(_, off, _) => Short(off)
    case Sw(_, off, _) => Short(off)
    case AddSp(n) => Short(n)
    case _ => true
  }

  predicate AllFit(ls: seq<Line>) { forall i :: 0 <= i < |ls| ==> Fits(ls[i]) }

  /** The frame and the words the caller passed arguments in lie within reach of sp. */
  predicate ShortFrame(fn: Fn, params: nat) { fn.Size() + 4 * (Max(params, A_MAX) - A_MAX) < 2048 }

  lemma FitsJoin(ls: seq<Line>, ks: seq<Line>)
    requires AllFit(ls) && AllFit(ks)
    ensures AllFit(ls + ks)
  {
  }

  lemma InFrame(a: Act, lo: int)
    requires ShortFrame(a.fn, a.params) && 0 <= lo
    requires lo + 4 <= a.fn.Size() || lo + 4 <= a.Above() - a.base
    ensures Short(lo)
  {
  }

  lemma SpillShort(a: Act, index: nat)
    requires ShortFrame(a.fn, a.params) && FrameSafe(a.fn) && a.fn.Limit() <= index < a.fn.valCount
    ensures Short(a.fn.SpillSlot(index))
  {
    SpillsSoundExactly(a.fn);
    assert SpillSound(a.fn, index);
    InFrame(a, a.fn.SpillSlot(index));
  }

  lemma FetchFits(a: Act, em: Em, live: Live, k: nat, op: Operand)
    requires ShortFrame(a.fn, a.params) && FrameSafe(a.fn) && LiveIn(live, em) && em.out <= a.fn.valCount
             && Usable(live, op)
    ensures AllFit(Fetch(a.fn, em, k, op).lines)
  {
    if op.Res? && em.outs[op.id] >= a.fn.Limit() {
      SpillShort(a, em.outs[op.id]);
    }
  }

  lemma LocateFits(a: Act, em: Em, k: nat, s: Slot)
    requires ShortFrame(a.fn, a.params) && StacksOk(a, em.stacks)
    ensures var p := Locate(a.fn, em, k, s); AllFit(p.lines) && Short(p.off)
  {
    FrameLayout(a.fn);
  }

  lemma ResultFits(a: Act, em: Em, l: Line)
    requires ShortFrame(a.fn, a.params) && FrameSafe(a.fn) && em.out < a.fn.valCount && Fits(l)
    ensures AllFit(Codegen.Result(a.fn, em, l))
  {
    if em.out >= a.fn.Limit() {
      SpillShort(a, em.out);
    }
  }

  lemma BinaryFits(a: Act, em: Em, op: BinOp, r1: Reg, r2: Reg)
    requires ShortFrame(a.fn, a.params) && FrameSafe(a.fn) && em.out < a.fn.valCount
    ensures AllFit(BinaryLines(a.fn, em, op, r1, r2))
  {
    hide Codegen.Result, ShortFrame, FrameSafe, Dest;
    var d := Dest(a.fn, em);
    forall l | Fits(l) ensures AllFit(Codegen.Result(a.fn, em, l)) {
      ResultFits(a, em, l);
    }
    assert Fits(Snez(d, d)) && Fits(Seqz(d, d)) && forall o :: Fits(Alu(o, d, r1, r2));
  }

  lemma {:induction false} SaveFits(a: Act, n: nat)
    requires ShortFrame(a.fn, a.params) && n <= a.fn.Saved()
    ensures AllFit(SaveLines(a.fn, n)) && AllFit(RestoreLines(a.fn, n))
  {
    if n > 0 {
      SaveFits(a, n - 1);
      FrameLayout(a.fn);
      InFrame(a, SaveSlot(a.fn, n - 1));
    }
  }

  lemma {:induction false} ArgsFit(a: Act, em: Em, live: Live, args: seq<Operand>)
    requires ShortFrame(a.fn, a.params) && FrameSafe(a.fn) && LiveIn(live, em) && em.out <= a.fn.valCount
    requires |args| <= a.fn.argCount && forall x :: x in args ==> Usable(live, x)
    ensures AllFit(ArgLines(a.fn, em, args).0)
  {
    if args != [] {
      var n := |args| - 1;
      ArgsFit(a, em, live, args[..n]);
      ArgLinesEm(a.fn, em, args[..n]);
      var em1 := ArgLines(a.fn, em, args[..n]).1;
      FetchFits(a, em1, live, 0, args[n]);
      FrameLayout(a.fn);
      if n >= A_MAX { InFrame(a, 4 * (n - A_MAX)); }
      hide FrameSafe, LiveIn, Fetch, Usable, ShortFrame;
      var o := Fetch(a.fn, em1, 0, args[n]);
      FitsJoin(ArgLines(a.fn, em, args[..n]).0, o.lines);
      FitsJoin(ArgLines(a.fn, em, args[..n]).0 + o.lines, [PassLine(n, o.reg)]);
    }
  }

  lemma EpilogueFits(a: Act)
    requires ShortFrame(a.fn, a.params)
    ensures AllFit(Epilogue(a.fn)) && AllFit(Prologue(a.fn))
  {
    FrameLayout(a.fn);
  }

  /** What a block's tables need for its offsets. */
  ghost predicate Known(a: Act, em: Em, live: Live)
  {
    ShortFrame(a.fn, a.params) && FrameSafe(a.fn) && StacksOk(a, em.stacks) && LiveIn(live, em)
      && em.out <= a.fn.valCount
  }

  lemma {:induction false} InstFits(a: Act, em: Em, live: Live, i: Inst)
    requires Known(a, em, live) && InstOk(live, em.stacks, i)
    requires (IntTyped(i) ==> em.out < a.fn.valCount) && (i.Call? ==> |i.args| <= a.fn.argCount)
    ensures AllFit(InstLines(a.fn, em, i).0)
  {
    hide ShortFrame, FrameSafe, StacksOk, Fetch, Locate, BinaryLines, SaveLines, RestoreLines, ArgLines,
         Codegen.Result, Epilogue, Usable;
    match i
    case Alloc(_) =>
    case Load(id, src) =>
      LocateFits(a, em, 0, src);
      var p := Locate(a.fn, em, 0, src);
      ResultFits(a, em, Lw(Dest(a.fn, em), p.off, p.base));
      FitsJoin(p.lines, Codegen.Result(a.fn, em, Lw(Dest(a.fn, em), p.off, p.base)));
    case Store(op, dest) => StoreFits(a, em, live, op, dest);
    case Binary(_, op, l, r) =>
      var o := Fetch(a.fn, em, 0, l);
      FetchFits(a, em, live, 0, l);
      FetchEm(a.fn, em, 0, l);
      FetchKnown(a, em, live, 0, l);
      FetchFits(a, o.em, live, 1, r);
      var p := Fetch(a.fn, o.em, 1, r);
      BinaryFits(a, em, op, o.reg, p.reg);
      FitsJoin(o.lines, p.lines);
      FitsJoin(o.lines + p.lines, BinaryLines(a.fn, em, op, o.reg, p.reg));
    case Call(_, f, args) => CallFits(a, em, live, f, args);
    case Branch(cond, _, _) => FetchFits(a, em, live, 0, cond);
    case Jump(_) =>
    case Return(None) => EpilogueFits(a);
    case Return(Some(op)) =>
      FetchFits(a, em, live, 0, op);
      EpilogueFits(a);
  }

  lemma FetchKnown(a: Act, em: Em, live: Live, k: nat, op: Operand)
    requires Known(a, em, live)
    ensures Known(a, Fetch(a.fn, em, k, op).em, live)
  {
    hide ShortFrame, FrameSafe, StacksOk;
  }

  lemma StoreFits(a: Act, em: Em, live: Live, op: Operand, dest: Slot)
    requires Known(a, em, live) && Usable(live, op)
    ensures AllFit(InstLines(a.fn, em, Inst.Store(op, dest)).0)
  {
    var o := Fetch(a.fn, em, 0, op);
    FetchFits(a, em, live, 0, op);
    FetchKnown(a, em, live, 0, op);
    LocateFits(a, o.em, 1, dest);
    hide ShortFrame, FrameSafe, StacksOk, LiveIn, Fetch, Locate;
    var p := Locate(a.fn, o.em, 1, dest);
    FitsJoin(o.lines, p.lines);
    FitsJoin(o.lines + p.lines, [Sw(o.reg, p.off, p.base)]);
  }

  lemma CallFits(a: Act, em: Em, live: Live, f: Callee, args: seq<Operand>)
    requires Known(a, em, live) && (!f.isVoid ==> em.out < a.fn.valCount) && |args| <= a.fn.argCount
    requires forall x :: x in args ==> Usable(live, x)
    ensures AllFit(CallLines(a.fn, em, f, args).0)
  {
    var n := Min(em.out, R_MAX);
    SaveFits(a, n);
    ArgsFit(a, em, live, args);
    if !f.isVoid { ResultFits(a, em, Mv(Dest(a.fn, em), A(0))); }
    hide ShortFrame, FrameSafe, StacksOk, LiveIn, SaveLines, RestoreLines, ArgLines, Codegen.Result, Usable;
    var ls := ArgLines(a.fn, em, args).0;
    FitsJoin(SaveLines(a.fn, n), ls);
    FitsJoin(SaveLines(a.fn, n) + ls, [CallTo(f.f)]);
    if !f.isVoid {
      FitsJoin(SaveLines(a.fn, n) + ls + [CallTo(f.f)], Codegen.Result(a.fn, em, Mv(Dest(a.fn, em), A(0))));
      FitsJoin(SaveLines(a.fn, n) + ls + [CallTo(f.f)] + Codegen.Result(a.fn, em, Mv(Dest(a.fn, em), A(0))),
               RestoreLines(a.fn, n));
    }
  }

  /** A result: the next index, for an id no other live value has. */
  lemma DefineLive(live: Live, em: Em, reg: nat, id: nat)
    requires LiveIn(live, em) && em.reg <= reg
    ensures LiveIn(live[id := em.out], Define(em.(reg := reg), id))
  {
  }

  lemma CallLive(fn: Fn, em: Em, live: Live, i: Inst)
    requires i.Call? && LiveIn(live, em)
    ensures LiveIn(LiveAfter(fn, live, em.out, i), InstLines(fn, em, i).1)
  {
    ArgLinesEm(fn, em, i.args);
    hide Survives, SaveLines, RestoreLines, ArgLines, Codegen.Result;
  }

  /** The live values keep their indices through an instruction. */
  lemma StaysLive(fn: Fn, em: Em, live: Live, stacks: Stacks, i: Inst)
    requires LiveIn(live, em) && InstOk(live, stacks, i)
    ensures LiveIn(LiveAfter(fn, live, em.out, i), InstLines(fn, em, i).1)
  {
    hide Survives, BinaryLines, Codegen.Result, SaveLines, RestoreLines, Scratch, CallLines, LiveIn;
    match i
    case Load(id, src) => DefineLive(live, em, Locate(fn, em, 0, src).em.reg, id);
    case Binary(id, _, l, r) =>
      var o := Fetch(fn, em, 0, l);
      DefineLive(live, em, Fetch(fn, o.em, 1, r).em.reg, id);
    case Call(_, _, _) => CallLive(fn, em, live, i);
    case Store(op, dest) =>
      MoreScratch(live, em, Locate(fn, Fetch(fn, em, 0, op).em, 1, dest).em.reg);
    case Branch(cond, _, _) => MoreScratch(live, em, Fetch(fn, em, 0, cond).em.reg);
    case Return(Some(op)) => MoreScratch(live, em, Fetch(fn, em, 0, op).em.reg);
    case _ =>
  }

  lemma MoreScratch(live: Live, em: Em, reg: nat)
    requires LiveIn(live, em) && em.reg <= reg
    ensures LiveIn(live, em.(reg := reg))
  {
  }

  /** The tables after an instruction. */
  lemma StillKnown(a: Act, em: Em, live: Live, i: Inst)
    requires Known(a, em, live) && InstOk(live, em.stacks, i) && (IntTyped(i) ==> em.out < a.fn.valCount)
    ensures Known(a, InstLines(a.fn, em, i).1, LiveAfter(a.fn, live, em.out, i))
  {
    hide ShortFrame, FrameSafe, StacksOk, InstLines, InstOk, LiveIn, LiveAfter;
    StaysLive(a.fn, em, live, em.stacks, i);
    InstEm(a.fn, em, i);
    NoArgStore(live, em.stacks, i);
  }

  lemma {:induction false} InstsFit(a: Act, em: Em, live: Live, insts: seq<Inst>)
    requires Known(a, em, live) && BlockOk(a.fn, em, live, insts)
    requires em.out + CountVals(insts) <= a.fn.valCount && CountArgs(insts) <= a.fn.argCount
    ensures AllFit(InstsLines(a.fn, em, insts).0)
    decreases |insts|
  {
    if insts != [] {
      CountsHead(insts);
      InstEm(a.fn, em, insts[0]);
      hide Known, InstLines, LiveAfter, InstOk, CountVals, CountArgs;
      InstFits(a, em, live, insts[0]);
      StillKnown(a, em, live, insts[0]);
      var em1, live1 := InstLines(a.fn, em, insts[0]).1, LiveAfter(a.fn, live, em.out, insts[0]);
      InstsFit(a, em1, live1, insts[1..]);
      FitsJoin(InstLines(a.fn, em, insts[0]).0, InstsLines(a.fn, em1, insts[1..]).0);
    }
  }

  /** The blocks after the entry. */
  lemma {:induction false} BlocksFit(a: Act, f: nat, fn: Func, ps: seq<nat>, bbs: seq<nat>)
    requires FuncOk(f, fn, ps) && a.fn == FnOf(f, fn) && a.params == fn.params && ShortFrame(a.fn, a.params)
    requires forall b :: b in bbs ==> b in fn.bbs[1..]
    ensures AllFit(BlocksLines(a.fn, Slots(f, fn, ps), fn.blocks, bbs).0)
    decreases |bbs|
  {
    if bbs != [] {
      hide FuncOk, FnOf, VarsOf, Slots, ShortFrame, InstsLines;
      assert bbs[0] in bbs;
      var s := Slots(f, fn, ps);
      OtherFits(a, f, fn, ps, bbs[0]);
      OtherBlockStores(f, fn, ps);
      InstsStacks(a.fn, Fresh(s), BlockAt(fn.blocks, bbs[0]));
      BlocksFit(a, f, fn, ps, bbs[1..]);
      var ls := InstsLines(a.fn, Fresh(s), BlockAt(fn.blocks, bbs[0])).0;
      FitsJoin([Mark(BlockLabel(a.fn.f, bbs[0]))], ls);
      FitsJoin([Mark(BlockLabel(a.fn.f, bbs[0]))] + ls, BlocksLines(a.fn, s, fn.blocks, bbs[1..]).0);
    }
  }

  lemma OtherFits(a: Act, f: nat, fn: Func, ps: seq<nat>, b: nat)
    requires FuncOk(f, fn, ps) && a.fn == FnOf(f, fn) && a.params == fn.params && ShortFrame(a.fn, a.params)
    requires b in fn.bbs[1..]
    ensures AllFit(InstsLines(a.fn, Fresh(Slots(f, fn, ps)), BlockAt(fn.blocks, b)).0)
  {
    assert b in fn.bbs;
    MaxOverBounds(CountVals, fn.blocks, fn.bbs, b);
    MaxOverBounds(CountArgs, fn.blocks, fn.bbs, b);
    SlotsOk(a, f, fn, ps);
    FuncSafe(f, fn, ps);
    assert BlockOk(a.fn, Fresh(Slots(f, fn, ps)), map[], BlockAt(fn.blocks, b));
    hide FuncOk, Slots, ShortFrame, StacksOk, FrameSafe, BlockOk, InstsLines;
    InstsFit(a, Fresh(Slots(f, fn, ps)), map[], BlockAt(fn.blocks, b));
  }

  lemma {:induction false} ParamsFit(a: Act, ps: seq<nat>)
    requires ShortFrame(a.fn, a.params) && Min(|ps|, A_MAX) <= a.fn.varCount
    ensures AllFit(ParamLines(a.fn, ps))
  {
    if ps != [] {
      var n := |ps| - 1;
      ParamsFit(a, ps[..n]);
      FrameLayout(a.fn);
      if n < A_MAX { InFrame(a, a.fn.VarSlot(n)); }
    }
  }

  /** Every offset and every adjustment of sp a function prints fits its instruction, if the frame and the
      words its caller passed arguments in take less than 2048 bytes. */
  lemma FuncFits(f: nat, fn: Func, ps: seq<nat>)
    requires FuncOk(f, fn, ps) && ShortFrame(FnOf(f, fn), fn.params)
    ensures AllFit(FuncLines(f, fn))
  {
    var a := Act(FnOf(f, fn), Env(n => 0, Source.Library(n => 0, (io, n, vs) => 0), m => m), fn.params, 0, 0, 0, map[]);
    hide FuncOk, FnOf, VarsOf, Slots, ShortFrame, BlocksLines, FuncLines, EntryLines, BlockOk;
    EntryPrinted(f, fn, ps);
    EntryFits(a, f, fn, ps);
    BlocksFit(a, f, fn, ps, fn.bbs[1..]);
    var others := BlocksLines(a.fn, Slots(f, fn, ps), fn.blocks, fn.bbs[1..]).0;
    FitsJoin(EntryLines(f, fn, ps), others);
  }

  lemma EntryIsOk(f: nat, fn: Func, ps: seq<nat>)
    requires FuncOk(f, fn, ps)
    ensures fn.bbs != [] && |ps| == fn.params && 2 * |ps| <= |BlockAt(fn.blocks, fn.bbs[0])|
    ensures BlockOk(FnOf(f, fn), Fresh(Slots(f, fn, ps)), map[], AfterParams(fn, |ps|))
  {
    hide FnOf, VarsOf, Slots, BlockOk, AllocsApart, JumpsInside, FrameSafe;
  }

  lemma EntryFits(a: Act, f: nat, fn: Func, ps: seq<nat>)
    requires FuncOk(f, fn, ps) && a.fn == FnOf(f, fn) && a.params == fn.params && ShortFrame(a.fn, a.params)
    ensures fn.bbs != [] && 2 * |ps| <= |BlockAt(fn.blocks, fn.bbs[0])| && AllFit(EntryLines(f, fn, ps))
  {
    hide FuncOk, FnOf, VarsOf, Slots, ShortFrame, StacksOk, FrameSafe, InstsLines, ParamLines, Prologue, BlockOk,
         CountVals, CountArgs, AfterParams, BlockAt;
    EntryIsOk(f, fn, ps);
    EntryCounts(f, fn, ps);
    EnoughLocals(f, fn, ps);
    FuncSafe(f, fn, ps);
    SlotsOk(a, f, fn, ps);
    EpilogueFits(a);
    ParamsFit(a, ps);
    InstsFit(a, Fresh(Slots(f, fn, ps)), map[], AfterParams(fn, |ps|));
  }

  /** The other way round: a frame of more than 2048 bytes is out of reach of the prologue already, in any function. */
  lemma LongFrameOverflows(f: nat, fn: Func)
    requires AllFit(FuncLines(f, fn))
    ensures FnOf(f, fn).Size() <= 2048
  {
    hide FnOf, VarsOf, BlocksLines;
    assert FuncLines(f, fn)[1] == AddSp(0 - FnOf(f, fn).Size());
  }

  /** Adding the size back is what decides: the prologue and epilogue together fit below 2048 bytes and no further. */
  lemma PrologueFitsExactly(fn: Fn)
    ensures AllFit(Prologue(fn) + Epilogue(fn)) <==> fn.Size() < 2048
  {
    var ls := Prologue(fn) + Epilogue(fn);
    FrameLayout(fn);
    assert ls[0] == AddSp(0 - fn.Size()) && ls[3] == AddSp(fn.Size());
  }
}
