/**
 * From source to machine: when what lowering builds is what code generation needs, the compiled program
 * does what the source program does.
 */
module EndToEnd {
  import opened Words
  import opened Source
  import opened Koopa
  import opened Riscv
  import opened Codegen
  import opened CodegenFrame
  import opened CodegenValues
  import opened CodegenInsts
  import opened CodegenCalls
  import opened CodegenLayout
  import opened CodegenRun
  import opened CodegenEntry
  import opened CodegenTheorem
  import opened Lists
  import opened Lowering
  import opened LoweringLocal
  import opened Programs
  import CodegenForever
  import LoweringCfg
  import LoweringExact
  import LoweringTheorem

  // ----- local code is code the generator handles -----

  /** No value is lost at an int call: there are no arguments to pass anywhere, or what precedes the call in
      its block fits the t registers. */
  predicate CallSafe(fn: Fn, insts: seq<Inst>)
  {
    forall j :: 0 <= j < |insts| && insts[j].Call? && !insts[j].f.isVoid ==>
      fn.argCount == 0 || CountVals(insts[..j]) <= T_MAX
  }

  lemma {:induction false} ValsUpTo(insts: seq<Inst>, j: nat)
    requires j <= |insts|
    ensures CountVals(insts[..j]) <= CountVals(insts)
    decreases |insts|
  {
    if j == |insts| {
      assert insts[..j] == insts;
    } else {
      ValsUpTo(insts[..|insts| - 1], j);
      assert insts[..|insts| - 1][..j] == insts[..j];
    }
  }

  /** In a frame-safe function exactly the call-safe blocks keep every earlier value across each of their int calls. */
  lemma CallSafeExactly(fn: Fn, insts: seq<Inst>)
    requires FrameSafe(fn) && CountVals(insts) <= fn.valCount
    ensures CallSafe(fn, insts) <==>
            forall j, i: nat ::
              0 <= j < |insts| && insts[j].Call? && !insts[j].f.isVoid && i < CountVals(insts[..j]) ==>
                Survives(fn, CountVals(insts[..j]), i)
  {
    hide FrameSafe, Survives, CountVals;
    forall j | 0 <= j < |insts|
      ensures (forall i: nat :: i < CountVals(insts[..j]) ==> Survives(fn, CountVals(insts[..j]), i)) <==>
              (fn.argCount == 0 || CountVals(insts[..j]) <= T_MAX)
    {
      ValsUpTo(insts, j);
      CallKeepsAllExactly(fn, CountVals(insts[..j]));
    }
  }

  predicate SlotsPlaced(stacks: Stacks, insts: seq<Inst>)
  {
    forall j :: 0 <= j < |insts| ==>
      && (insts[j].Load? ==> Placed(stacks, insts[j].src))
      && (insts[j].Store? ==> Placed(stacks, insts[j].dest))
  }

  lemma {:induction false} LocalAt(insts: seq<Inst>, j: nat)
    requires UsesOwn(insts) && j < |insts|
    ensures InstLocal(DefsOf(insts[..j]), insts[j])
  {
    var n := |insts| - 1;
    if j < n {
      LocalAt(insts[..n], j);
      assert insts[..n][..j] == insts[..j];
    }
  }

  /** At a call-safe point an instruction leaves live every value local code may still use. */
  lemma LiveCovers(fn: Fn, em: Em, live: Live, d: set<nat>, i: Inst)
    requires d <= live.Keys && InstLocal(d, i) && forall id :: id in live ==> live[id] < em.out
    requires i.Call? && !i.f.isVoid ==> fn.argCount == 0 || em.out <= T_MAX
    ensures InstOk(live, em.stacks, i) || i.Load? || i.Store?
    ensures i.Store? ==> Usable(live, i.value)
    ensures var live1 := LiveAfter(fn, live, em.out, i);
            && DefAfter(d, i) <= live1.Keys
            && forall id :: id in live1 ==> live1[id] < em.out + if IntTyped(i) then 1 else 0
  {
  }

  lemma {:induction false} LocalIsOk(fn: Fn, em: Em, live: Live, insts: seq<Inst>, j: nat)
    requires UsesOwn(insts) && SlotsPlaced(em.stacks, insts) && CallSafe(fn, insts) && j <= |insts|
    requires em.out == CountVals(insts[..j]) && DefsOf(insts[..j]) <= live.Keys
    requires forall id :: id in live ==> live[id] < em.out
    ensures BlockOk(fn, em, live, insts[j..])
    decreases |insts| - j
  {
    if j < |insts| {
      var i := insts[j];
      LocalAt(insts, j);
      var em1, live1 := InstLines(fn, em, i).1, LiveAfter(fn, live, em.out, i);
      LiveCovers(fn, em, live, DefsOf(insts[..j]), i);
      InstEm(fn, em, i);
      assert !StoresArg(i);
      assert insts[..j + 1][..j] == insts[..j] && insts[..j + 1][j] == i;
      hide LiveAfter, InstLines, UsesOwn, Survives, Usable, DefAfter, InstLocal;
      LocalIsOk(fn, em1, live1, insts, j + 1);
      assert insts[j..][1..] == insts[j + 1..];
    }
  }

  // ----- slots -----

  /** A block of the function allocates the slot. */
  ghost predicate SomeAllocates(g: Graph, bbs: seq<nat>, s: Slot)
  {
    exists b: nat :: b in bbs && Allocates(BlockAt(g, b), s)
  }

  /** What the function allocates is what its blocks allocate. */
  lemma {:induction false} AllInstsAllocates(g: Graph, bbs: seq<nat>, s: Slot)
    ensures Allocates(AllInsts(g, bbs), s) <==> SomeAllocates(g, bbs, s)
  {
    if bbs != [] {
      hide Allocates, SomeAllocates, BlockAt;
      var n := |bbs| - 1;
      AllInstsAllocates(g, bbs[..n], s);
      AllocatesEither(AllInsts(g, bbs[..n]), BlockAt(g, bbs[n]), s);
      SomeAllocatesLast(g, bbs, s);
    }
  }

  lemma SomeAllocatesLast(g: Graph, bbs: seq<nat>, s: Slot)
    requires bbs != []
    ensures SomeAllocates(g, bbs, s) <==>
            SomeAllocates(g, bbs[..|bbs| - 1], s) || Allocates(BlockAt(g, bbs[|bbs| - 1]), s)
  {
    hide Allocates, BlockAt;
    var n := |bbs| - 1;
    assert bbs == bbs[..n] + [bbs[n]];
    assert forall b: nat :: b in bbs <==> b in bbs[..n] || b == bbs[n];
  }

  lemma AllocatesEither(xs: seq<Inst>, ys: seq<Inst>, s: Slot)
    ensures Allocates(xs + ys, s) <==> Allocates(xs, s) || Allocates(ys, s)
  {
    var zs := xs + ys;
    if Allocates(xs, s) {
      var i :| 0 <= i < |xs| && AllocOf(xs[i], s);
      assert AllocOf(zs[i], s);
    }
    if Allocates(ys, s) {
      var i :| 0 <= i < |ys| && AllocOf(ys[i], s);
      assert AllocOf(zs[|xs| + i], s);
    }
    if Allocates(zs, s) {
      var i :| 0 <= i < |zs| && AllocOf(zs[i], s);
      if i < |xs| { assert AllocOf(xs[i], s); } else { assert AllocOf(ys[i - |xs|], s); }
    }
  }

  lemma {:induction false} ParamAllocs(ps: seq<nat>, s: Slot)
    requires Allocates(ParamInsts(ps), s)
    ensures exists i: nat :: i < |ps| && s == ParamSlot(ps, i)
  {
    if ps != [] {
      var n := |ps| - 1;
      var pair := [Alloc(ParamSlot(ps, n)), Inst.Store(ArgRef(n), ParamSlot(ps, n))];
      AllocatesEither(ParamInsts(ps[..n]), pair, s);
      if Allocates(ParamInsts(ps[..n]), s) {
        ParamAllocs(ps[..n], s);
        var i: nat :| i < n && s == ParamSlot(ps[..n], i);
        assert s == ParamSlot(ps, i);
      } else {
        var i :| 0 <= i < |pair| && AllocOf(pair[i], s);
        assert s == ParamSlot(ps, n);
      }
    }
  }

  /** Whatever a function allocates has a slot in its frame, or the one its caller made. */
  lemma AllocatedPlaced(f: nat, fn: Func, ps: seq<nat>, rest: seq<Inst>, s: Slot)
    requires |ps| == fn.params && Distinct(ps) && AllInsts(fn.blocks, fn.bbs) == ParamInsts(ps) + rest
    requires Allocates(AllInsts(fn.blocks, fn.bbs), s)
    ensures s in Slots(f, fn, ps)
  {
    hide CountVars, AllInsts, Allocates, ParamStacks;
    var c := Fn(f, MaxOver(CountVals, fn.blocks, fn.bbs), MaxOver(CountArgs, fn.blocks, fn.bbs), 0);
    AllocatesEither(ParamInsts(ps), rest, s);
    ParamsCounted(c, fn.params, ps);
    LaterCounted(c, fn.params, ParamInsts(ps), rest);
    ParamStacksMeans(FnOf(f, fn), VarsOf(f, fn).stacks, ps);
    if !Allocates(rest, s) {
      ParamAllocs(ps, s);
      var i: nat :| i < |ps| && s == ParamSlot(ps, i);
    }
  }

  // ----- lowered functions -----

  lemma {:induction false} AllListed(bbs: seq<nat>, b: nat)
    ensures multiset(bbs)[b] > 0 <==> b in bbs
  {
  }

  /** Every block is listed, and the entry only at the head. */
  lemma ListedOnce(fn: Func)
    requires fn.bbs != [] && fn.bbs[0] == 0 && fn.blocks != []
    requires forall b: nat :: multiset(fn.bbs)[b] == if b < |fn.blocks| then 1 else 0
    ensures forall b: nat :: b in fn.bbs <==> b < |fn.blocks|
    ensures forall b: nat :: b in fn.bbs[1..] <==> 0 < b < |fn.blocks|
  {
    assert fn.bbs == [fn.bbs[0]] + fn.bbs[1..];
    assert multiset(fn.bbs) == multiset{0} + multiset(fn.bbs[1..]);
    forall b: nat ensures b in fn.bbs <==> b < |fn.blocks|
      ensures b in fn.bbs[1..] <==> 0 < b < |fn.blocks|
    {
      AllListed(fn.bbs, b);
      AllListed(fn.bbs[1..], b);
    }
  }

  /** The conditions on the code that depend on how much a function computes at once. */
  ghost predicate FuncSafeToEmit(f: nat, fn: Func)
  {
    FrameSafe(FnOf(f, fn)) && forall b :: b in fn.bbs ==> CallSafe(FnOf(f, fn), BlockAt(fn.blocks, b))
  }

  /** The entry block after its parameters. */
  lemma LoweredEntry(fd: FuncDef)
    requires ItemsWellNested(fd.body, false)
    ensures var fn, ps := LowerFunc(fd), fd.params;
            && fn.bbs != [] && fn.bbs[0] == 0 && fn.blocks != [] && fn.params == |ps|
            && |ParamInsts(ps)| == 2 * |ps| && ParamInsts(ps) <= fn.blocks[0] && 2 * |ps| <= |fn.blocks[0]|
            && fn.blocks[0] == ParamInsts(ps) + AfterParams(fn, |ps|)
            && AfterParams(fn, |ps|) == Tail(2 * |ps|, fn.blocks, 0)
    ensures var fn := LowerFunc(fd);
            && (forall b: nat :: b in fn.bbs <==> b < |fn.blocks|)
            && (forall b: nat :: b in fn.bbs[1..] <==> 0 < b < |fn.blocks|)
            && forall b: nat :: b < |fn.blocks| ==> TargetsIn(fn.blocks[b], fn.bbs[1..])
  {
    hide LowerFunc;
    LoweringTheorem.EntryFirst(fd);
    LoweringTheorem.ParamPrefix(fd.params, 0);
    LoweringCfg.CfgWellFormed(fd);
    var fn := LowerFunc(fd);
    LoweredParams(fd);
    ListedOnce(fn);
    forall b: nat | b < |fn.blocks| ensures TargetsIn(fn.blocks[b], fn.bbs[1..]) {
      assert LoweringCfg.AllAim(fn.blocks[b], |fn.blocks|);
    }
  }

  lemma LoweredParams(fd: FuncDef)
    ensures LowerFunc(fd).params == |fd.params| && LowerFunc(fd).isVoid == fd.isVoid
  {
  }

  /** All instructions of a lowered function: the parameters' own, and the rest. */
  lemma LoweredInsts(fd: FuncDef)
    requires ItemsWellNested(fd.body, false)
    ensures var fn, ps := LowerFunc(fd), fd.params;
            && fn.bbs != [] && fn.blocks != [] && 2 * |ps| <= |BlockAt(fn.blocks, fn.bbs[0])|
            && AllInsts(fn.blocks, fn.bbs) ==
               ParamInsts(ps) + (AfterParams(fn, |ps|) + AllInsts(fn.blocks, fn.bbs[1..]))
  {
    hide LowerFunc, AllInsts, TargetsIn, Tail;
    LoweredEntry(fd);
    var fn, ps := LowerFunc(fd), fd.params;
    AllInstsHead(fn.blocks, fn.bbs);
    Group3(ParamInsts(ps), AfterParams(fn, |ps|), AllInsts(fn.blocks, fn.bbs[1..]));
  }

  /** Slots used are slots registered. */
  lemma LoweredPlaced(f: nat, fs: Funcs, fd: FuncDef, slot: Slot)
    requires FuncDefOk(fs, fd) && Made(LowerFunc(fd).blocks, slot)
    ensures Placed(Slots(f, LowerFunc(fd), fd.params), slot)
  {
    hide LowerFunc, Slots, AllInsts, Allocates, ItemsTyped, TargetsIn, Tail, AfterParams, ParamInsts;
    var fn, ps := LowerFunc(fd), fd.params;
    LoweredParams(fd);
    LoweredInsts(fd);
    LoweredEntry(fd);
    if !(slot.Of? && slot.v.Global?) {
      var b: nat :| b < |fn.blocks| && Allocates(fn.blocks[b], slot);
      assert BlockAt(fn.blocks, b) == fn.blocks[b];
      AllInstsAllocates(fn.blocks, fn.bbs, slot);
      AllocatedPlaced(f, fn, ps, AfterParams(fn, |ps|) + AllInsts(fn.blocks, fn.bbs[1..]), slot);
    }
  }

  lemma TailPlaced(f: nat, fs: Funcs, fd: FuncDef, b: nat)
    requires FuncDefOk(fs, fd) && b < |LowerFunc(fd).blocks|
    ensures UsesOwn(Tail(2 * |fd.params|, LowerFunc(fd).blocks, b))
    ensures SlotsPlaced(Slots(f, LowerFunc(fd), fd.params), Tail(2 * |fd.params|, LowerFunc(fd).blocks, b))
  {
    LoweringExact.LoweredIsLocal(fs, fd);
    hide LowerFunc, Slots, Made, Placed, UsesOwn;
    var g, insts := LowerFunc(fd).blocks, Tail(2 * |fd.params|, LowerFunc(fd).blocks, b);
    forall j | 0 <= j < |insts|
      ensures insts[j].Load? ==> Placed(Slots(f, LowerFunc(fd), fd.params), insts[j].src)
      ensures insts[j].Store? ==> Placed(Slots(f, LowerFunc(fd), fd.params), insts[j].dest)
    {
      assert Fine(RulesOf(fs, fd), g, insts[j]);
      if insts[j].Load? { LoweredPlaced(f, fs, fd, insts[j].src); }
      if insts[j].Store? { LoweredPlaced(f, fs, fd, insts[j].dest); }
    }
  }

  /** Call-safety of a block is that of its end. */
  lemma CallSafeTail(fn: Fn, insts: seq<Inst>, n: nat)
    requires CallSafe(fn, insts) && n <= |insts|
    ensures CallSafe(fn, insts[n..])
  {
    var tail := insts[n..];
    forall j | 0 <= j < |tail| && tail[j].Call? && !tail[j].f.isVoid
      ensures fn.argCount == 0 || CountVals(tail[..j]) <= T_MAX
    {
      assert insts[n + j] == tail[j];
      assert insts[..n + j][n..] == tail[..j];
      CountsSuffix(insts[..n + j], n);
    }
  }

  lemma TailOk(f: nat, fs: Funcs, fd: FuncDef, b: nat)
    requires FuncDefOk(fs, fd) && b < |LowerFunc(fd).blocks| && FuncSafeToEmit(f, LowerFunc(fd))
    ensures var fn := LowerFunc(fd);
            BlockOk(FnOf(f, fn), Fresh(Slots(f, fn, fd.params)), map[], Tail(2 * |fd.params|, fn.blocks, b))
  {
    hide LowerFunc, FnOf, Slots, FrameSafe, UsesOwn, SlotsPlaced, CallSafe, ItemsTyped;
    LoweredEntry(fd);
    TailPlaced(f, fs, fd, b);
    var fn := LowerFunc(fd);
    var insts := Tail(2 * |fd.params|, fn.blocks, b);
    assert CallSafe(FnOf(f, fn), BlockAt(fn.blocks, b));
    if b == 0 { CallSafeTail(FnOf(f, fn), fn.blocks[0], 2 * |fd.params|); }
    LocalIsOk(FnOf(f, fn), Fresh(Slots(f, fn, fd.params)), map[], insts, 0);
    assert insts[0..] == insts;
  }

  /** No parameter's slot and no global is allocated after the parameters' own. */
  lemma TailAllocs(fs: Funcs, fd: FuncDef, b: nat, s: Slot)
    requires FuncDefOk(fs, fd) && b < |LowerFunc(fd).blocks|
    requires Allocates(Tail(2 * |fd.params|, LowerFunc(fd).blocks, b), s)
    ensures s.Of? ==> s.v.Local? && s.v.x !in fd.params
  {
    LoweringExact.LoweredIsLocal(fs, fd);
    hide LowerFunc, Made, UsesOwn;
    var g, insts := LowerFunc(fd).blocks, Tail(2 * |fd.params|, LowerFunc(fd).blocks, b);
    var i :| 0 <= i < |insts| && AllocOf(insts[i], s);
    assert Fine(RulesOf(fs, fd), g, insts[i]);
  }

  /** Nor is any allocated in the rest of the entry block or in another block. */
  lemma RestAllocs(fs: Funcs, fd: FuncDef, s: Slot)
    requires FuncDefOk(fs, fd)
    requires LowerFunc(fd).bbs != [] && 2 * |fd.params| <= |BlockAt(LowerFunc(fd).blocks, LowerFunc(fd).bbs[0])|
    requires var fn := LowerFunc(fd); Allocates(AfterParams(fn, |fd.params|) + AllInsts(fn.blocks, fn.bbs[1..]), s)
    ensures s.Of? ==> s.v.Local? && s.v.x !in fd.params
  {
    hide LowerFunc, AllInsts, Allocates, ItemsTyped, TargetsIn, AfterParams, ParamInsts;
    LoweredEntry(fd);
    var fn, ps := LowerFunc(fd), fd.params;
    AllocatesEither(AfterParams(fn, |ps|), AllInsts(fn.blocks, fn.bbs[1..]), s);
    if Allocates(AfterParams(fn, |ps|), s) {
      TailAllocs(fs, fd, 0, s);
    } else {
      AllInstsAllocates(fn.blocks, fn.bbs[1..], s);
      var b: nat :| b in fn.bbs[1..] && Allocates(BlockAt(fn.blocks, b), s);
      TailAllocs(fs, fd, b, s);
    }
  }

  lemma AllocsOk(fs: Funcs, fd: FuncDef)
    requires FuncDefOk(fs, fd)
    ensures LowerFunc(fd).bbs != [] && LowerFunc(fd).blocks != []
            && 2 * |fd.params| <= |BlockAt(LowerFunc(fd).blocks, LowerFunc(fd).bbs[0])|
    ensures var fn, ps := LowerFunc(fd), fd.params;
            && (forall i: nat :: i < |ps| ==> !Allocates(AfterParams(fn, |ps|) + AllInsts(fn.blocks, fn.bbs[1..]),
                                                         ParamSlot(ps, i)))
            && (forall g :: !Allocates(AllInsts(fn.blocks, fn.bbs), Of(Global(g))))
  {
    hide LowerFunc, AllInsts, Allocates, ItemsTyped, AfterParams, ParamInsts;
    LoweredInsts(fd);
    var fn, ps := LowerFunc(fd), fd.params;
    var rest := AfterParams(fn, |ps|) + AllInsts(fn.blocks, fn.bbs[1..]);
    forall i: nat | i < |ps| ensures !Allocates(rest, ParamSlot(ps, i)) {
      if Allocates(rest, ParamSlot(ps, i)) { RestAllocs(fs, fd, ParamSlot(ps, i)); }
    }
    forall g ensures !Allocates(AllInsts(fn.blocks, fn.bbs), Of(Global(g))) {
      AllocatesEither(ParamInsts(ps), rest, Of(Global(g)));
      if Allocates(ParamInsts(ps), Of(Global(g))) { ParamAllocs(ps, Of(Global(g))); }
      if Allocates(rest, Of(Global(g))) { RestAllocs(fs, fd, Of(Global(g))); }
    }
  }

  /** A function whose source is well-formed is one the code generator handles, if it is frame-safe and
      call-safe. */
  lemma LoweredFuncOk(f: nat, fs: Funcs, fd: FuncDef)
    requires FuncDefOk(fs, fd) && FuncSafeToEmit(f, LowerFunc(fd))
    ensures FuncOk(f, LowerFunc(fd), fd.params)
  {
    hide LowerFunc, FnOf, Slots, BlockOk, CallSafe, ItemsTyped, FrameSafe, AllInsts, Allocates, TargetsIn;
    LoweredEntry(fd);
    AllocsOk(fs, fd);
    var fn := LowerFunc(fd);
    TailOk(f, fs, fd, 0);
    forall b | b in fn.bbs[1..]
      ensures BlockOk(FnOf(f, fn), Fresh(Slots(f, fn, fd.params)), map[], BlockAt(fn.blocks, b))
    {
      TailOk(f, fs, fd, b);
    }
  }

  // ----- programs -----

  /** The source conditions: distinct parameters, ints as operands, logical operators first, and no use of what is
      dropped after a `return`. */
  ghost predicate SourceOk(p: SourceProgram)
  {
    forall f :: Programs.Find(p.funcs, f).Some? ==> FuncDefOk(p.funcs, Programs.Find(p.funcs, f).value)
  }

  /** The conditions on the IR: no frame overlap, no value lost at a call. */
  ghost predicate SafeToEmit(q: KoopaProgram)
  {
    forall f :: Programs.Find(q.funcs, f).Some? ==> FuncSafeToEmit(f, Programs.Find(q.funcs, f).value)
  }

  lemma CalleeKinds(p: SourceProgram, callee: Callee)
    requires CalleeOk(p.funcs, callee)
    ensures KindAgrees(LowerProgram(p).funcs, callee)
  {
    FindLowered(p.funcs, callee.f);
    var fd := Programs.Find(p.funcs, callee.f);
    if fd.Some? { LoweredParams(fd.value); }
  }

  lemma LoweredCallsAgree(p: SourceProgram, fd: FuncDef, b: nat)
    requires FuncDefOk(p.funcs, fd) && b < |LowerFunc(fd).blocks|
    ensures CallsAgree(LowerProgram(p).funcs, BlockAt(LowerFunc(fd).blocks, b))
  {
    LoweredEntry(fd);
    hide LowerFunc, ItemsTyped, KindAgrees, LowerProgram, TargetsIn, CalleeOk, AfterParams, Tail;
    var insts, skip := LowerFunc(fd).blocks[b], |ParamInsts(fd.params)|;
    forall i | 0 <= i < |insts| && insts[i].Call? ensures KindAgrees(LowerProgram(p).funcs, insts[i].f) {
      if b == 0 && i < skip {
        assert insts[i] == ParamInsts(fd.params)[i];
        ParamsCallNothing(fd.params);
        assert false;
      } else {
        LoweredCallee(p.funcs, fd, b, i);
        CalleeKinds(p, insts[i].f);
      }
    }
  }

  lemma LoweredCallee(fs: Funcs, fd: FuncDef, b: nat, i: nat)
    requires FuncDefOk(fs, fd) && b < |LowerFunc(fd).blocks| && i < |LowerFunc(fd).blocks[b]|
    requires (b == 0 ==> 2 * |fd.params| <= i) && LowerFunc(fd).blocks[b][i].Call?
    ensures CalleeOk(fs, LowerFunc(fd).blocks[b][i].f)
  {
    LoweringExact.LoweredIsLocal(fs, fd);
    hide LowerFunc, Made, UsesOwn, ItemsTyped, CalleeOk;
    var g, insts := LowerFunc(fd).blocks, Tail(2 * |fd.params|, LowerFunc(fd).blocks, b);
    assert g[b][i] == insts[i - (|g[b]| - |insts|)];
    assert Fine(RulesOf(fs, fd), g, g[b][i]);
  }

  lemma {:induction false} ParamsCallNothing(ps: seq<nat>)
    ensures forall i :: 0 <= i < |ParamInsts(ps)| ==> !ParamInsts(ps)[i].Call?
  {
    if ps != [] {
      ParamsCallNothing(ps[..|ps| - 1]);
    }
  }

  lemma LoweredProgramOk(p: SourceProgram)
    requires SourceOk(p) && SafeToEmit(LowerProgram(p))
    ensures ProgramOk(LowerProgram(p)) && AllWellNested(p)
  {
    hide FuncDefOk, FuncSafeToEmit, FuncOk, CallsAgree, LowerFunc;
    var q := LowerProgram(p);
    forall f | Programs.Find(q.funcs, f).Some?
      ensures var fn := Programs.Find(q.funcs, f).value;
              (exists ps :: FuncOk(f, fn, ps)) && forall b :: b in fn.bbs ==> CallsAgree(q.funcs, BlockAt(fn.blocks, b))
    {
      FindLowered(p.funcs, f);
      var fd := Programs.Find(p.funcs, f).value;
      LoweredFuncOk(f, p.funcs, fd);
      NestedOf(p.funcs, fd);
      LoweredEntry(fd);
      forall b | b in LowerFunc(fd).bbs ensures CallsAgree(q.funcs, BlockAt(LowerFunc(fd).blocks, b)) {
        LoweredCallsAgree(p, fd, b);
      }
    }
    forall f | Programs.Find(p.funcs, f).Some? ensures ItemsWellNested(Programs.Find(p.funcs, f).value.body, false) {
      NestedOf(p.funcs, Programs.Find(p.funcs, f).value);
    }
  }

  lemma NestedOf(fs: Funcs, fd: FuncDef)
    requires FuncDefOk(fs, fd)
    ensures ItemsWellNested(fd.body, false)
  {
  }

  /** The compiled program does what the source program does: entered at a function's label with the
      arguments in place, the machine comes back to the caller having made the same library calls in the same
      order, with the same globals and the same result, whenever the source call returns. */
  lemma CompiledFunctionRuns(p: SourceProgram, depth: nat, callee: Callee, args: seq<Word>, w: World, w1: World,
                             v: Word,
                             env: Env, top: int, m: Machine) returns (u: Machine)
    requires SourceOk(p) && SafeToEmit(LowerProgram(p)) && CalleeOk(p.funcs, callee)
             && Programs.Find(p.funcs, callee.f).Some?
    requires env.lib == p.lib && EnvOk(env, top)
    requires CallSource(p, depth, callee, args, w) == Returns(w1, v)
    requires var code := ProgramLines(LowerProgram(p).funcs);
             m.pc == Riscv.Find(code, FuncLabel(callee.f)) && EntryOk(env, top, args, w, m)
    ensures MReaches(ProgramLines(LowerProgram(p).funcs), env, m, u)
    ensures u.pc == Get(m, Ra) && !u.trapped && Get(u, Sp) == Get(m, Sp) && (!callee.isVoid ==> Get(u, A(0)) == v)
    ensures u.io == w1.io && forall g :: g in w1.globals ==> Peek(u, env.address(g)) == w1.globals[g]
    ensures forall x :: Get(m, Sp) + ArgBytes(|args|) <= x < top ==> Peek(u, x) == Peek(m, x)
  {
    hide SourceOk, SafeToEmit, ProgramOk, EnvOk, EntryOk, MReaches, LowerFunc, Riscv.Find, FnOf, CallSource, CallKoopa;
    var q := LowerProgram(p);
    LoweredProgramOk(p);
    CalleeKinds(p, callee);
    FindLowered(p.funcs, callee.f);
    LowerProgramPreservesCalls(p, depth, callee, args, w);
    u := FuncRuns(q, depth, callee, args, w, w1, v, env, top, m);
  }

  /** And it does not end when the source program does not: a call that hangs at some depth keeps the machine
      going for at least that many steps. */
  lemma CompiledFunctionLasts(p: SourceProgram, depth: nat, callee: Callee, args: seq<Word>, w: World, env: Env,
                              top: int, m: Machine)
    requires SourceOk(p) && SafeToEmit(LowerProgram(p)) && Programs.Find(p.funcs, callee.f).Some?
    requires env.lib == p.lib && EnvOk(env, top)
    requires CallSource(p, depth, callee, args, w) == Hangs
    requires var code := ProgramLines(LowerProgram(p).funcs);
             m.pc == Riscv.Find(code, FuncLabel(callee.f)) && EntryOk(env, top, args, w, m)
    ensures MLasts(ProgramLines(LowerProgram(p).funcs), env, m, depth)
  {
    hide SourceOk, SafeToEmit, ProgramOk, EnvOk, EntryOk, MLasts, LowerFunc, Riscv.Find, CallSource, CallKoopa;
    LoweredProgramOk(p);
    FindLowered(p.funcs, callee.f);
    LowerProgramPreservesCalls(p, depth, callee, args, w);
    CodegenForever.FuncLasts(LowerProgram(p), depth, callee, args, w, env, top, m);
  }

  /** The machine comes to a stop. */
  ghost predicate Stops(code: seq<Line>, env: Env, m: Machine)
  {
    exists n: nat :: !MLasts(code, env, m, n)
  }

  /** The source call returns if enough calls may nest. */
  ghost predicate ReturnsAtSomeDepth(p: SourceProgram, callee: Callee, args: seq<Word>, w: World)
  {
    exists depth: nat :: CallSource(p, depth, callee, args, w).Returns?
  }

  /** Entered from outside the code, the compiled program stops exactly when the source program returns, for any
      source program that never reads a variable without a value or otherwise fails. */
  lemma CompiledFunctionStopsExactly(p: SourceProgram, callee: Callee, args: seq<Word>, w: World, env: Env, top: int,
                                     m: Machine)
    requires SourceOk(p) && SafeToEmit(LowerProgram(p)) && CalleeOk(p.funcs, callee)
             && Programs.Find(p.funcs, callee.f).Some?
    requires env.lib == p.lib && EnvOk(env, top)
    requires forall depth: nat :: CallSource(p, depth, callee, args, w) != Fails
    requires var code := ProgramLines(LowerProgram(p).funcs);
             && m.pc == Riscv.Find(code, FuncLabel(callee.f)) && EntryOk(env, top, args, w, m)
             && !(0 <= Get(m, Ra) < |code|)
    ensures Stops(ProgramLines(LowerProgram(p).funcs), env, m) <==> ReturnsAtSomeDepth(p, callee, args, w)
  {
    hide SourceOk, SafeToEmit, EnvOk, EntryOk, LowerFunc, Riscv.Find, CallSource, MReaches, MLasts, ProgramLines;
    var code := ProgramLines(LowerProgram(p).funcs);
    if ReturnsAtSomeDepth(p, callee, args, w) {
      var depth: nat :| CallSource(p, depth, callee, args, w).Returns?;
      var r := CallSource(p, depth, callee, args, w);
      var u := CompiledFunctionRuns(p, depth, callee, args, w, r.w, r.v, env, top, m);
      ReachesStop(code, env, m, u);
    }
    forall n: nat | !MLasts(code, env, m, n) ensures CallSource(p, n, callee, args, w).Returns? {
      if CallSource(p, n, callee, args, w) == Hangs {
        CompiledFunctionLasts(p, n, callee, args, w, env, top, m);
      }
    }
  }

  lemma ReachesStop(code: seq<Line>, env: Env, m: Machine, u: Machine)
    requires MReaches(code, env, m, u) && !(0 <= u.pc < |code|)
    ensures Stops(code, env, m)
  {
    var n: nat :| MSteps(code, env, m, n) == u;
    assert !MLasts(code, env, m, n);
  }
}
