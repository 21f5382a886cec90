/**
 * Two programs, one that is not call-safe and one that is not frame-safe: what they mean, what they are lowered to and
 * what is printed for them.
 */
module UnsafePrograms {
  import opened Words
  import opened Source
  import opened Koopa
  import opened Riscv
  import opened Codegen
  import opened Lists
  import opened Lowering
  import opened LoweringLocal
  import opened Programs

  // ----- reading a variable over and over -----

  const X: Var := Var.Local(0)

  const READ: Exp := LVal(Variable(X))

  /** `x; x; ...` and the rest. */
  function Reads(n: nat, rest: Items): Items
  {
    if n == 0 then rest else Items(Stm(Eval(READ)), Reads(n - 1, rest))
  }

  function Loads(n: nat, id: nat): seq<Inst>
  {
    if n == 0 then [] else [Load(id, Of(X))] + Loads(n - 1, id + 1)
  }

  /** One block, open. */
  predicate OneOpen(s: State) { s.cur == 0 && |s.blocks| == 1 && !Terminated(s.blocks[0]) && !s.returned }

  function More(s: State, insts: seq<Inst>, ids: nat): State
    requires |s.blocks| == 1
  {
    s.(next := s.next + ids, blocks := [s.blocks[0] + insts])
  }

  lemma MoreAgain(s: State, xs: seq<Inst>, i: nat, ys: seq<Inst>, j: nat)
    requires |s.blocks| == 1
    ensures More(More(s, xs, i), ys, j) == More(s, xs + ys, i + j)
  {
    assert s.blocks[0] + (xs + ys) == (s.blocks[0] + xs) + ys;
  }

  lemma AppendMore(s: State, i: Inst)
    requires OneOpen(s)
    ensures Append(s, i) == More(s, [i], 0) && Emit(s, i) == More(s, [i], 1)
    ensures !Terminator(i) ==> OneOpen(More(s, [i], 0)) && OneOpen(More(s, [i], 1))
  {
  }

  lemma {:induction false} LowerReads(n: nat, rest: Items, s: State)
    requires OneOpen(s)
    ensures OneOpen(More(s, Loads(n, s.next), n))
    ensures LowerItems(Reads(n, rest), s) == LowerItems(rest, More(s, Loads(n, s.next), n))
  {
    if n == 0 {
      assert s.blocks[0] + [] == s.blocks[0] && s.blocks == [s.blocks[0]];
    } else {
      var i := Load(s.next, Of(X));
      AppendMore(s, i);
      var t := More(s, [i], 1);
      assert LowerItem(Stm(Eval(READ)), s) == t;
      LowerReads(n - 1, rest, t);
      MoreAgain(s, [i], 1, Loads(n - 1, s.next + 1), n - 1);
    }
  }

  /** Reading changes nothing. */
  lemma {:induction false} ExecReads(o: Oracle, fuel: nat, n: nat, rest: Items, s: Source.Store)
    requires Read(s, X).Some?
    ensures ExecItems(o, fuel, Reads(n, rest), s) == ExecItems(o, fuel, rest, s)
  {
    if n > 0 {
      ExecReads(o, fuel, n - 1, rest, s);
      assert EvalExp(o, READ, s).Value? && EvalExp(o, READ, s).s == s;
      assert ExecItem(o, fuel, Stm(Eval(READ)), s) == Normal(s);
    }
  }

  lemma {:induction false} ReadsOk(fs: Funcs, params: set<nat>, made: set<nat>, n: nat, rest: Items)
    ensures ItemsTyped(fs, params, Reads(n, rest)) <==> ItemsTyped(fs, params, rest)
    ensures ItemsWellNested(Reads(n, rest), false) <==> ItemsWellNested(rest, false)
    ensures ItemsLogicFirst(Reads(n, rest)) <==> ItemsLogicFirst(rest)
    ensures ItemsAllocs(false, Reads(n, rest)) == ItemsAllocs(false, rest)
    ensures 0 in made ==> (ItemsKept(made, false, Reads(n, rest)) <==> ItemsKept(made, false, rest))
  {
    if n > 0 {
      ReadsOk(fs, params, made, n - 1, rest);
    }
  }

  // ----- counts and slots -----

  lemma {:induction false} CountLoads(fn: Fn, xs: seq<Inst>, n: nat, id: nat)
    ensures CountVals(xs + Loads(n, id)) == CountVals(xs) + n && CountArgs(xs + Loads(n, id)) == CountArgs(xs)
    ensures CountVars(fn, 1, xs + Loads(n, id)) == CountVars(fn, 1, xs)
    decreases n
  {
    hide CountVals, CountArgs, CountVars;
    if n == 0 {
      assert xs + [] == xs;
    } else {
      var i := Load(id, Of(X));
      CountOne(fn, xs, i);
      CountLoads(fn, xs + [i], n - 1, id + 1);
      Group3(xs, [i], Loads(n - 1, id + 1));
    }
  }

  lemma CountOne(fn: Fn, xs: seq<Inst>, i: Inst)
    ensures CountVals(xs + [i]) == CountVals(xs) + if IntTyped(i) then 1 else 0
    ensures CountArgs(xs + [i]) == CountArgs(xs) + if i.Call? then |i.args| else 0
    ensures CountVars(fn, 1, xs + [i]) == CountVar(fn, 1, i, CountVars(fn, 1, xs))
  {
    assert (xs + [i])[..|xs|] == xs;
  }

  const PARAM: seq<Inst> := [Alloc(Of(X)), Inst.Store(ArgRef(0), Of(X))]

  lemma CountParam(fn: Fn)
    ensures CountVals(PARAM) == CountArgs(PARAM) == 0
            && CountVars(fn, 1, PARAM) == Vars(1, 0, map[Of(X) := fn.VarSlot(0)])
    ensures ParamInsts([0]) == PARAM
  {
    hide CountVals, CountArgs, CountVars;
    CountNone(fn);
    CountOne(fn, [], PARAM[0]);
    CountOne(fn, [PARAM[0]], PARAM[1]);
    assert [] + [PARAM[0]] == [PARAM[0]] && [PARAM[0]] + [PARAM[1]] == PARAM;
    ParamIs();
  }

  lemma CountNone(fn: Fn)
    ensures CountVals([]) == CountArgs([]) == 0 && CountVars(fn, 1, []) == Vars(0, 0, map[])
  {
  }

  lemma ParamIs()
    ensures ParamInsts([0]) == PARAM
  {
    assert ParamInsts([]) == [] && [0][..0] == [];
    assert [] + PARAM == PARAM;
  }

  // ----- printing the loads -----

  /** The tables after the loads. */
  function AfterLoads(em: Em, n: nat, id: nat): Em
    decreases n
  {
    if n == 0 then em else AfterLoads(Define(em, id), n - 1, id + 1)
  }

  function LoadLines(fn: Fn, out: nat, n: nat, off: int): seq<Line>
    requires out + n <= fn.Limit()
    decreases n
  {
    if n == 0 then [] else [Lw(fn.RegOf(out), off, Sp)] + LoadLines(fn, out + 1, n - 1, off)
  }

  lemma {:induction false} AfterLoadsMeans(em: Em, n: nat, id: nat)
    ensures var t := AfterLoads(em, n, id);
            && t.out == em.out + n && t.stacks == em.stacks
            && (n > 0 ==> t.reg == t.out)
            && (forall j: nat :: id <= j < id + n ==> j in t.outs && t.outs[j] == em.out + (j - id))
            && forall j: nat :: j < id && j in em.outs ==> j in t.outs && t.outs[j] == em.outs[j]
    decreases n
  {
    if n > 0 {
      AfterLoadsMeans(Define(em, id), n - 1, id + 1);
    }
  }

  lemma {:induction false} PrintLoads(fn: Fn, em: Em, n: nat, id: nat, rest: seq<Inst>)
    requires Of(X) in em.stacks && em.out + n <= fn.Limit()
    ensures var ls := LoadLines(fn, em.out, n, em.stacks[Of(X)]);
            InstsLines(fn, em, Loads(n, id) + rest).0 == ls + InstsLines(fn, AfterLoads(em, n, id), rest).0
    decreases n
  {
    hide Loads, AfterLoads, LoadLines, InstsLines, InstLines;
    if n == 0 {
      NoLoads(fn, em, id, rest);
    } else {
      var i, more := Load(id, Of(X)), Loads(n - 1, id + 1);
      PrintLoads(fn, Define(em, id), n - 1, id + 1, rest);
      Head(i, more, rest);
      PrintOne(fn, em, i, more + rest);
      LoadIs(fn, em, id);
      Group3([Lw(fn.RegOf(em.out), em.stacks[Of(X)], Sp)], LoadLines(fn, em.out + 1, n - 1, em.stacks[Of(X)]),
             InstsLines(fn, AfterLoads(Define(em, id), n - 1, id + 1), rest).0);
      assert LoadLines(fn, em.out, n, em.stacks[Of(X)])
          == [Lw(fn.RegOf(em.out), em.stacks[Of(X)], Sp)] + LoadLines(fn, em.out + 1, n - 1, em.stacks[Of(X)]) by {
        LoadLinesHead(fn, em.out, n, em.stacks[Of(X)]);
      }
      LoadsHead(em, n, id);
    }
  }

  lemma NoLoads(fn: Fn, em: Em, id: nat, rest: seq<Inst>)
    requires Of(X) in em.stacks && em.out <= fn.Limit()
    ensures InstsLines(fn, em, Loads(0, id) + rest).0 ==
            LoadLines(fn, em.out, 0, em.stacks[Of(X)]) + InstsLines(fn, AfterLoads(em, 0, id), rest).0
  {
    assert [] + rest == rest;
  }

  lemma Head(i: Inst, xs: seq<Inst>, ys: seq<Inst>)
    ensures ([i] + xs) + ys == [i] + (xs + ys)
  {
  }

  lemma LoadsHead(em: Em, n: nat, id: nat)
    requires n > 0
    ensures Loads(n, id) == [Load(id, Of(X))] + Loads(n - 1, id + 1)
    ensures AfterLoads(em, n, id) == AfterLoads(Define(em, id), n - 1, id + 1)
  {
  }

  lemma LoadLinesHead(fn: Fn, out: nat, n: nat, off: int)
    requires out + n <= fn.Limit() && n > 0
    ensures LoadLines(fn, out, n, off) == [Lw(fn.RegOf(out), off, Sp)] + LoadLines(fn, out + 1, n - 1, off)
  {
  }

  lemma LoadIs(fn: Fn, em: Em, id: nat)
    requires Of(X) in em.stacks && em.out < fn.Limit()
    ensures InstLines(fn, em, Load(id, Of(X))) == ([Lw(fn.RegOf(em.out), em.stacks[Of(X)], Sp)], Define(em, id))
  {
    var l := Lw(fn.RegOf(em.out), em.stacks[Of(X)], Sp);
    assert [] + [l] == [l];
  }

  lemma PrintOne(fn: Fn, em: Em, i: Inst, rest: seq<Inst>)
    ensures InstsLines(fn, em, [i] + rest).0 == InstLines(fn, em, i).0 + InstsLines(fn, InstLines(fn, em, i).1, rest).0
  {
    assert ([i] + rest)[1..] == rest;
  }

  // ----- the programs -----

  const G: Callee := Callee(1, false)

  /** `g(0)`, of a library function. */
  const CALL_G: Exp := Exp.Call(G, Exps(Num(0), NoExps))

  /** `int f(int x) { x; x; x; x; x; return x + g(0); }` */
  const LOST_END: Items := Items(Stm(Stmt.Return(Some(Exp.Binary(Add, READ, CALL_G)))), NoItems)

  const LOST: FuncDef := FuncDef(false, [0], Reads(5, LOST_END))

  /** `int f(int x) { g(0); x; x; x; x; x; x; x; x; x; x; -x; return x; }` */
  const SPOILT_END: Items := Items(Stm(Eval(Neg(READ))), Items(Stm(Stmt.Return(Some(READ))), NoItems))

  const SPOILT: FuncDef := FuncDef(false, [0], Items(Stm(Eval(CALL_G)), Reads(10, SPOILT_END)))

  /** The library: g takes one argument and answers 0. */
  const LIB: Library := Library(n => 1, (io, n, vs) => 0)

  function Prog(fd: FuncDef): SourceProgram { SourceProgram([(0, fd)], LIB) }

  // ----- what the programs mean -----

  lemma ReadsOnly(o: Oracle, s: Source.Store, v: Word)
    requires Read(s, X) == Some(v)
    ensures EvalExp(o, READ, s) == EvalResult.Value(v, s)
  {
  }

  /** The world after g was called. */
  function Called(w: World): World { World(w.globals, w.io + [Event(1, [0])]) }

  lemma CallMeans(p: SourceProgram, w: World)
    requires Programs.Find(p.funcs, 1) == None && p.lib == LIB
    ensures SourceCalls(p, 0)(w, G, [0]) == Returns(Called(w), 0)
  {
  }

  lemma EvalCall(o: Oracle, s: Source.Store)
    requires o(s.w, G, [0]) == Returns(Called(s.w), 0)
    ensures EvalExp(o, CALL_G, s) == EvalResult.Value(0, s.(w := Called(s.w)))
  {
    assert EvalArgs(o, NoExps, s) == Values([], s);
    assert EvalArgs(o, Exps(Num(0), NoExps), s) == Values([0], s);
  }

  /** A function that returns v for any fuel returns v. */
  lemma SourceReturns(fd: FuncDef, v: Word, x: Word, w: World, w1: World)
    requires !fd.isVoid && |fd.params| == 1
    requires forall fuel: nat :: RunFunc(SourceCalls(Prog(fd), 0), fuel, fd, [v], w) == Some(Done(Some(x), w1))
    ensures CallSource(Prog(fd), 1, Callee(0, false), [v], w) == Returns(w1, x)
  {
    hide RunFunc;
    var o := SourceCalls(Prog(fd), 0);
    assert Programs.Find(Prog(fd).funcs, 0) == Some(fd);
    assert RunFunc(o, 0, fd, [v], w) == Some(Done(Some(x), w1));
    assert EndsWith(o, fd, [v], w, Done(Some(x), w1));
  }

  lemma LostMeans(v: Word, w: World)
    ensures CallSource(Prog(LOST), 1, Callee(0, false), [v], w) == Returns(Called(w), v)
  {
    hide EvalExp, Reads;
    var o := SourceCalls(Prog(LOST), 0);
    var s := Source.Store(BindParams([0], [v]), w);
    ParamBound(v, w);
    forall fuel: nat ensures RunFunc(o, fuel, LOST, [v], w) == Some(Done(Some(v), Called(w))) {
      ExecReads(o, fuel, 5, LOST_END, s);
      CallMeans(Prog(LOST), w);
      SumMeans(o, s, v);
      assert ExecItem(o, fuel, LOST_END.head, s) == Returned(Some(v), Called(w));
    }
    SourceReturns(LOST, v, v, w, Called(w));
  }

  lemma ParamBound(v: Word, w: World)
    ensures Read(Source.Store(BindParams([0], [v]), w), X) == Some(v)
  {
    assert [0][..0] == [] && [v][..0] == [];
  }

  lemma SumMeans(o: Oracle, s: Source.Store, v: Word)
    requires Read(s, X) == Some(v) && o(s.w, G, [0]) == Returns(Called(s.w), 0)
    ensures EvalExp(o, Exp.Binary(Add, READ, CALL_G), s) == EvalResult.Value(v, s.(w := Called(s.w)))
  {
    ReadsOnly(o, s, v);
    EvalCall(o, s);
  }

  lemma SpoiltMeans(v: Word, w: World)
    ensures CallSource(Prog(SPOILT), 1, Callee(0, false), [v], w) == Returns(Called(w), v)
  {
    hide Reads;
    var o := SourceCalls(Prog(SPOILT), 0);
    var s := Source.Store(BindParams([0], [v]), w);
    var s1 := s.(w := Called(w));
    ParamBound(v, w);
    CallMeans(Prog(SPOILT), w);
    EvalCall(o, s);
    ReadsOnly(o, s1, v);
    hide EvalExp;
    forall fuel: nat ensures RunFunc(o, fuel, SPOILT, [v], w) == Some(Done(Some(v), Called(w))) {
      assert ExecItem(o, fuel, Stm(Eval(CALL_G)), s) == Normal(s1);
      ExecReads(o, fuel, 10, SPOILT_END, s1);
      NegMeans(o, s1, v);
      assert ExecItem(o, fuel, SPOILT_END.head, s1) == Normal(s1);
      assert ExecItem(o, fuel, SPOILT_END.tail.head, s1) == Returned(Some(v), Called(w));
      assert ExecItems(o, fuel, SPOILT_END, s1) == Returned(Some(v), Called(w));
    }
    SourceReturns(SPOILT, v, v, w, Called(w));
  }

  lemma NegMeans(o: Oracle, s: Source.Store, v: Word)
    requires Read(s, X) == Some(v)
    ensures EvalExp(o, Neg(READ), s).Value? && EvalExp(o, Neg(READ), s).s == s
  {
    ReadsOnly(o, s, v);
  }

  // ----- what they are lowered to -----

  const CALL: Inst := Inst.Call(6, G, [Imm(0)])

  const LOST_TAIL: seq<Inst> := [CALL, Inst.Binary(7, Add, Res(5), Res(6)), Inst.Return(Some(Res(7)))]

  function LostInsts(): seq<Inst> { PARAM + Loads(6, 0) + LOST_TAIL }

  lemma {:induction false} LoadsLast(n: nat, id: nat)
    ensures Loads(n + 1, id) == Loads(n, id) + [Load(id + n, Of(X))]
    decreases n
  {
    if n > 0 {
      LoadsLast(n - 1, id + 1);
    }
  }

  lemma StartIs()
    ensures FuncStart([0]) == State(0, [PARAM], [0], 0, 0, 0, false) && OneOpen(FuncStart([0]))
  {
    CountParam(Fn(0, 0, 0, 0));
  }

  /** A body whose lowering leaves one block is the function. */
  lemma LoweredOne(fd: FuncDef, s: State, insts: seq<Inst>)
    requires !fd.isVoid && |fd.params| == 1 && LowerItems(fd.body, FuncStart(fd.params)) == s
    requires s.blocks == [insts] && s.bbs == [0]
    ensures LowerFunc(fd) == Func(false, 1, [0], [insts])
  {
  }

  lemma LostLowered()
    ensures LowerFunc(LOST) == Func(false, 1, [0], [LostInsts()])
  {
    hide Reads, Loads;
    StartIs();
    var s := FuncStart([0]);
    LowerReads(5, LOST_END, s);
    var s1 := More(s, Loads(5, 0), 5);
    var s4 := More(s1, [Load(5, Of(X))] + LOST_TAIL, 3);
    LostReturn(s1);
    LoadsLast(5, 0);
    assert PARAM + Loads(5, 0) + ([Load(5, Of(X))] + LOST_TAIL) == LostInsts();
    LoweredOne(LOST, s4.(returned := true), LostInsts());
  }

  lemma ZeroArg(s: State)
    ensures LowerArgs(Exps(Num(0), NoExps), s) == (s, [Imm(0)])
  {
    assert LowerArgs(NoExps, s) == (s, []);
    assert [Imm(0)] + [] == [Imm(0)];
  }

  lemma LostReturn(s: State)
    requires OneOpen(s) && s.next == 5
    ensures LowerItems(LOST_END, s) == More(s, [Load(5, Of(X))] + LOST_TAIL, 3).(returned := true)
  {
    var t1 := More(s, [Load(5, Of(X))], 1);
    AppendMore(s, Load(5, Of(X)));
    AppendMore(NewId(t1), CALL);
    var t2 := More(NewId(t1), [CALL], 0);
    ZeroArg(NewId(t1));
    assert LowerExp(CALL_G, t1) == (t2, Res(6));
    AppendMore(t2, LOST_TAIL[1]);
    var t3 := More(t2, [LOST_TAIL[1]], 1);
    assert LowerExp(Exp.Binary(Add, READ, CALL_G), s) == (t3, Res(7));
    AppendMore(t3, LOST_TAIL[2]);
    var t4 := More(t3, [LOST_TAIL[2]], 0);
    assert t4.blocks[0] == s.blocks[0] + ([Load(5, Of(X))] + LOST_TAIL);
    assert LowerItem(LOST_END.head, s) == t4.(returned := true);
    assert LowerItems(NoItems, t4.(returned := true)) == t4.(returned := true);
  }

  const SPOILT_TAIL: seq<Inst> :=
    [Load(11, Of(X)), Inst.Binary(12, Sub, Imm(0), Res(11)), Load(13, Of(X)), Inst.Return(Some(Res(13)))]

  function SpoiltInsts(): seq<Inst> { PARAM + [Inst.Call(0, G, [Imm(0)])] + Loads(10, 1) + SPOILT_TAIL }

  lemma SpoiltLowered()
    ensures LowerFunc(SPOILT) == Func(false, 1, [0], [SpoiltInsts()])
  {
    hide Reads, Loads;
    StartIs();
    var s := FuncStart([0]);
    var call := Inst.Call(0, G, [Imm(0)]);
    AppendMore(NewId(s), call);
    var s1 := More(NewId(s), [call], 0);
    ZeroArg(NewId(s));
    assert LowerItem(Stm(Eval(CALL_G)), s) == s1;
    LowerReads(10, SPOILT_END, s1);
    var s2 := More(s1, Loads(10, 1), 10);
    SpoiltReturn(s2);
    var s3 := More(s2, SPOILT_TAIL, 3).(returned := true);
    LoweredOne(SPOILT, s3, SpoiltInsts());
  }

  lemma SpoiltReturn(s: State)
    requires OneOpen(s) && s.next == 11
    ensures LowerItems(SPOILT_END, s) == More(s, SPOILT_TAIL, 3).(returned := true)
  {
    AppendMore(s, SPOILT_TAIL[0]);
    var t1 := More(s, [SPOILT_TAIL[0]], 1);
    AppendMore(t1, SPOILT_TAIL[1]);
    var t2 := More(t1, [SPOILT_TAIL[1]], 1);
    assert LowerExp(READ, s) == (t1, Res(11));
    assert LowerExp(Neg(READ), s) == (t2, Res(12));
    assert LowerItem(SPOILT_END.head, s) == t2;
    AppendMore(t2, SPOILT_TAIL[2]);
    var t3 := More(t2, [SPOILT_TAIL[2]], 1);
    AppendMore(t3, SPOILT_TAIL[3]);
    var t4 := More(t3, [SPOILT_TAIL[3]], 0);
    assert t4.blocks[0] == s.blocks[0] + SPOILT_TAIL;
    assert LowerItem(SPOILT_END.tail.head, t2) == t4.(returned := true);
    assert LowerItems(NoItems, t4.(returned := true)) == t4.(returned := true);
    assert LowerItems(SPOILT_END.tail, t2) == t4.(returned := true);
  }

  // ----- their frames -----

  /** The context of a function with one parameter and one block. */
  lemma ContextOf(insts: seq<Inst>, vals: nat, args: nat)
    requires CountVals(insts) == vals && CountArgs(insts) == args
    requires var c := Fn(0, vals, args, 0); CountVars(c, 1, insts) == Vars(1, 0, map[Of(X) := c.VarSlot(0)])
    ensures var fn := Func(false, 1, [0], [insts]);
            && FnOf(0, fn) == Fn(0, vals, args, 1)
            && VarsOf(0, fn).stacks == map[Of(X) := Fn(0, vals, args, 1).VarSlot(0)]
  {
    hide CountVals, CountArgs, CountVars;
    var fn := Func(false, 1, [0], [insts]);
    OneBlock(CountVals, insts);
    OneBlock(CountArgs, insts);
    assert AllInsts([insts], [0]) == insts by {
      assert AllInsts([insts], []) == [] && [0][..0] == [];
      assert [] + insts == insts;
    }
    assert Fn(0, vals, args, 0).VarSlot(0) == Fn(0, vals, args, 1).VarSlot(0);
  }

  lemma OneBlock(count: seq<Inst> -> nat, insts: seq<Inst>)
    ensures MaxOver(count, [insts], [0]) == count(insts)
  {
    assert [0][..0] == [] && MaxOver(count, [insts], []) == 0;
  }

  lemma LostContext()
    ensures var fn := LowerFunc(LOST);
            && FnOf(0, fn) == Fn(0, 8, 1, 1) && VarsOf(0, fn).stacks == map[Of(X) := 32]
  {
    hide Loads, LowerFunc, FnOf, VarsOf, CountVals, CountArgs, CountVars, ParamInsts;
    LostLowered();
    var c := Fn(0, 8, 1, 0);
    var xs := PARAM + Loads(6, 0);
    CountParam(c);
    CountLoads(c, PARAM, 6, 0);
    CountOne(c, xs, LOST_TAIL[0]);
    CountOne(c, xs + [LOST_TAIL[0]], LOST_TAIL[1]);
    CountOne(c, xs + [LOST_TAIL[0]] + [LOST_TAIL[1]], LOST_TAIL[2]);
    assert xs + [LOST_TAIL[0]] + [LOST_TAIL[1]] + [LOST_TAIL[2]] == LostInsts();
    ContextOf(LostInsts(), 8, 1);
  }

  lemma SpoiltContext()
    ensures var fn := LowerFunc(SPOILT);
            && FnOf(0, fn) == Fn(0, 14, 1, 1) && VarsOf(0, fn).stacks == map[Of(X) := 52]
  {
    hide Loads, LowerFunc, FnOf, VarsOf, CountVals, CountArgs, CountVars, ParamInsts;
    SpoiltLowered();
    var c := Fn(0, 14, 1, 0);
    var call := Inst.Call(0, G, [Imm(0)]);
    CountParam(c);
    CountOne(c, PARAM, call);
    CountLoads(c, PARAM + [call], 10, 1);
    var xs := PARAM + [call] + Loads(10, 1);
    CountOne(c, xs, SPOILT_TAIL[0]);
    CountOne(c, xs + [SPOILT_TAIL[0]], SPOILT_TAIL[1]);
    CountOne(c, xs + [SPOILT_TAIL[0]] + [SPOILT_TAIL[1]], SPOILT_TAIL[2]);
    CountOne(c, xs + [SPOILT_TAIL[0]] + [SPOILT_TAIL[1]] + [SPOILT_TAIL[2]], SPOILT_TAIL[3]);
    assert xs + [SPOILT_TAIL[0]] + [SPOILT_TAIL[1]] + [SPOILT_TAIL[2]] + [SPOILT_TAIL[3]] == SpoiltInsts();
    ContextOf(SpoiltInsts(), 14, 1);
  }

  // ----- what they are printed as -----

  /** The lines of a function with one parameter and one block. */
  lemma PrintedOne(fd: FuncDef, c: Fn, insts: seq<Inst>)
    requires LowerFunc(fd) == Func(false, 1, [0], [insts]) && c.f == 0
    requires FnOf(0, LowerFunc(fd)) == c && VarsOf(0, LowerFunc(fd)).stacks == map[Of(X) := c.VarSlot(0)]
    ensures ProgramLines(LowerProgram(Prog(fd)).funcs) ==
            [Mark(FuncLabel(0))] + Prologue(c) + [Mark(BlockLabel(0, 0))]
            + InstsLines(c, Fresh(map[Of(X) := c.VarSlot(0)]), insts).0
  {
    hide LowerFunc, FnOf, VarsOf, InstsLines, Prologue;
    var fn, stacks := LowerFunc(fd), map[Of(X) := c.VarSlot(0)];
    var ls := InstsLines(c, Fresh(stacks), insts).0;
    assert Prog(fd).funcs[1..] == [] && LowerFuncs([]) == [] && [(0, fn)] + [] == [(0, fn)];
    assert LowerProgram(Prog(fd)).funcs == [(0, fn)] && [(0, fn)][1..] == [];
    assert ProgramLines([(0, fn)]) == FuncLines(0, fn) + ProgramLines([]);
    assert BlocksLines(c, stacks, [insts], [0]).0 == BlockLines(c, stacks, [insts], 0).0 + [] by {
      assert [0][1..] == [];
    }
    Printed([Mark(FuncLabel(0))], Prologue(c), [Mark(BlockLabel(0, 0))], ls);
  }

  lemma Printed(a: seq<Line>, b: seq<Line>, c: seq<Line>, d: seq<Line>)
    ensures (a + b + ((c + d) + [])) + [] == a + b + c + d
  {
  }

  lemma PrintParam(c: Fn, rest: seq<Inst>)
    ensures var em := Fresh(map[Of(X) := c.VarSlot(0)]);
            InstsLines(c, em, PARAM + rest).0 == [Sw(A(0), c.VarSlot(0), Sp)] + InstsLines(c, em, rest).0
  {
    hide InstsLines;
    var em := Fresh(map[Of(X) := c.VarSlot(0)]);
    assert PARAM + rest == [PARAM[0]] + ([PARAM[1]] + rest);
    PrintOne(c, em, PARAM[0], [PARAM[1]] + rest);
    PrintOne(c, em, PARAM[1], rest);
  }

  const LOST_FN: Fn := Fn(0, 8, 1, 1)

  function LostBefore(): seq<Line>
  {
    [Mark(BlockLabel(0, 0)), Sw(A(0), 32, Sp)] + LoadLines(LOST_FN, 0, 6, 32) + SaveLines(LOST_FN, 6) + [Mv(A(0), Zero)]
  }

  const LOST_SUM: seq<Line> := [Alu(ADD, A(3), A(1), A(2)), Mv(A(0), A(3)), Lw(Ra, 60, Sp), AddSp(64)]

  function LostCode(): seq<Line>
  {
    [Mark(FuncLabel(0)), AddSp(-64), Sw(Ra, 60, Sp)] + LostBefore() + [CallTo(1)]
    + ([Mv(A(2), A(0))] + RestoreLines(LOST_FN, 6)) + LOST_SUM + [Ret]
  }

  lemma ZeroArgLines(c: Fn, em: Em)
    ensures ArgLines(c, em, [Imm(0)]) == ([Mv(A(0), Zero)], em)
  {
    assert [Imm(0)][..0] == [] && ArgLines(c, em, []) == ([], em);
    assert [] + [] + [Mv(A(0), Zero)] == [Mv(A(0), Zero)];
  }

  lemma LostTailLines(em: Em)
    requires em.out == em.reg == 6 && 5 in em.outs && em.outs[5] == 5
    ensures InstsLines(LOST_FN, em, LOST_TAIL).0 ==
            SaveLines(LOST_FN, 6) + [Mv(A(0), Zero)] + [CallTo(1)] + [Mv(A(2), A(0))] + RestoreLines(LOST_FN, 6)
            + LOST_SUM + [Ret]
  {
    hide SaveLines, RestoreLines, InstsLines;
    var c, em1 := LOST_FN, Define(em, 6);
    var em2 := Define(em1, 7);
    ZeroArgLines(c, em);
    LostCall(em);
    assert LOST_TAIL == [CALL] + LOST_TAIL[1..] && LOST_TAIL[1..] == [LOST_TAIL[1]] + [LOST_TAIL[2]];
    PrintOne(c, em, CALL, LOST_TAIL[1..]);
    PrintOne(c, em1, LOST_TAIL[1], [LOST_TAIL[2]]);
    assert InstLines(c, em1, LOST_TAIL[1]) == ([Alu(ADD, A(3), A(1), A(2))], em2) by {
      assert [] + [] + [Alu(ADD, A(3), A(1), A(2))] == [Alu(ADD, A(3), A(1), A(2))];
    }
    assert InstLines(c, em2, LOST_TAIL[2]).0 == [Mv(A(0), A(3)), Lw(Ra, 60, Sp), AddSp(64), Ret];
    PrintLast(c, em2, LOST_TAIL[2]);
    Lines3(SaveLines(c, 6) + [Mv(A(0), Zero)] + [CallTo(1)] + [Mv(A(2), A(0))] + RestoreLines(c, 6));
  }

  lemma Lines3(ls: seq<Line>)
    ensures ls + ([Alu(ADD, A(3), A(1), A(2))] + [Mv(A(0), A(3)), Lw(Ra, 60, Sp), AddSp(64),
                                                  Ret]) == ls + LOST_SUM + [Ret]
  {
  }

  lemma PrintLast(fn: Fn, em: Em, i: Inst)
    ensures InstsLines(fn, em, [i]).0 == InstLines(fn, em, i).0
  {
    assert [i] == [i] + [];
    PrintOne(fn, em, i, []);
  }

  lemma LostCall(em: Em)
    requires em.out == em.reg == 6
    ensures InstLines(LOST_FN, em, CALL) ==
            (SaveLines(LOST_FN, 6) + [Mv(A(0), Zero)] + [CallTo(1)] + [Mv(A(2), A(0))] + RestoreLines(LOST_FN, 6),
             Define(em, 6))
  {
    hide SaveLines, RestoreLines;
    ZeroArgLines(LOST_FN, em);
  }

  lemma LostPrinted()
    ensures ProgramLines(LowerProgram(Prog(LOST)).funcs) == LostCode()
  {
    hide InstsLines, LowerFunc, FnOf, VarsOf, Loads, LoadLines, SaveLines, RestoreLines, ProgramLines, AfterLoads;
    LostLowered();
    LostContext();
    var c := LOST_FN;
    var em := Fresh(map[Of(X) := 32]);
    PrintedOne(LOST, c, LostInsts());
    assert LostInsts() == PARAM + (Loads(6, 0) + LOST_TAIL);
    PrintParam(c, Loads(6, 0) + LOST_TAIL);
    PrintLoads(c, em, 6, 0, LOST_TAIL);
    AfterLoadsMeans(em, 6, 0);
    LostTailLines(AfterLoads(em, 6, 0));
    LostAll(LoadLines(c, 0, 6, 32), SaveLines(c, 6), RestoreLines(c, 6));
  }

  lemma LostAll(loads: seq<Line>, saves: seq<Line>, restores: seq<Line>)
    ensures [Mark(FuncLabel(0))] + [AddSp(-64), Sw(Ra, 60, Sp)] + [Mark(BlockLabel(0, 0))]
            + ([Sw(A(0), 32, Sp)] + (loads + (saves + [Mv(A(0), Zero)] + [CallTo(1)] + [Mv(A(2),
                A(0))] + restores + LOST_SUM + [Ret])))
         == [Mark(FuncLabel(0)), AddSp(-64), Sw(Ra, 60, Sp)]
            + ([Mark(BlockLabel(0, 0)), Sw(A(0), 32, Sp)] + loads + saves + [Mv(A(0), Zero)]) + [CallTo(1)]
            + ([Mv(A(2), A(0))] + restores) + LOST_SUM + [Ret]
  {
  }

  const SPOILT_FN: Fn := Fn(0, 14, 1, 1)

  const SPOILT_LINES: seq<Line> :=
    [Lw(A(7), 52, Sp), Alu(SUB, T(5), Zero, A(7)), Sw(T(5), 52, Sp), Lw(T(5), 52, Sp), Sw(T(5), 56, Sp),
     Lw(T(5), 56, Sp), Mv(A(0), T(5)), Lw(Ra, 76, Sp), AddSp(80)]

  function SpoiltCode(): seq<Line>
  {
    [Mark(FuncLabel(0)), AddSp(-80), Sw(Ra, 76, Sp)] + [Mark(BlockLabel(0, 0)), Sw(A(0), 52, Sp), Mv(A(0), Zero)]
    + [CallTo(1)] + ([Mv(T(0), A(0))] + LoadLines(SPOILT_FN, 1, 10, 52)) + SPOILT_LINES + [Ret]
  }

  lemma SpoiltNeg(em: Em)
    requires em.out == em.reg == 12 && 11 in em.outs && em.outs[11] == 11
    ensures InstLines(SPOILT_FN, em, SPOILT_TAIL[1]) ==
            ([Alu(SUB, T(5), Zero, A(7)), Sw(T(5), 52, Sp)], Define(em, 12))
  {
    var neg := [Alu(SUB, T(5), Zero, A(7)), Sw(T(5), 52, Sp)];
    assert [] + [] + neg == neg;
  }

  lemma SpoiltLoad(em: Em)
    requires em.out == em.reg == 13 && em.stacks == map[Of(X) := 52]
    ensures InstLines(SPOILT_FN, em, SPOILT_TAIL[2]) == ([Lw(T(5), 52, Sp), Sw(T(5), 56, Sp)], Define(em, 13))
  {
    var load := [Lw(T(5), 52, Sp), Sw(T(5), 56, Sp)];
    assert [] + load == load;
  }

  lemma SpoiltReturnLines(em: Em)
    requires 13 in em.outs && em.outs[13] == 13
    ensures InstLines(SPOILT_FN, em, SPOILT_TAIL[3]).0 == [Lw(T(5), 56, Sp), Mv(A(0), T(5)), Lw(Ra, 76, Sp),
                                                           AddSp(80), Ret]
  {
  }

  lemma SpoiltInstLines(em: Em)
    requires em.out == em.reg == 11 && em.stacks == map[Of(X) := 52]
    ensures var c, t := SPOILT_FN, SPOILT_TAIL;
            var em1, em2, em3 := Define(em, 11), Define(Define(em, 11), 12), Define(Define(Define(em, 11), 12), 13);
            && InstLines(c, em, t[0]) == (SPOILT_LINES[..1], em1)
              && InstLines(c, em1, t[1]) == (SPOILT_LINES[1..3], em2)
            && InstLines(c, em2, t[2]) == (SPOILT_LINES[3..5], em3)
            && InstLines(c, em3, t[3]).0 == SPOILT_LINES[5..] + [Ret]
  {
    hide InstLines;
    var em1 := Define(em, 11);
    var em2 := Define(em1, 12);
    assert SPOILT_LINES[..1] == [Lw(A(7), 52, Sp)] && SPOILT_LINES[1..3] == [Alu(SUB, T(5), Zero, A(7)),
                                                                             Sw(T(5), 52, Sp)];
    assert SPOILT_LINES[3..5] == [Lw(T(5), 52, Sp), Sw(T(5), 56, Sp)];
    assert SPOILT_LINES[5..] + [Ret] == [Lw(T(5), 56, Sp), Mv(A(0), T(5)), Lw(Ra, 76, Sp), AddSp(80), Ret];
    LoadIs(SPOILT_FN, em, 11);
    SpoiltNeg(em1);
    SpoiltLoad(em2);
    SpoiltReturnLines(Define(em2, 13));
  }

  lemma SpoiltTailLines(em: Em)
    requires em.out == em.reg == 11 && em.stacks == map[Of(X) := 52]
    ensures InstsLines(SPOILT_FN, em, SPOILT_TAIL).0 == SPOILT_LINES + [Ret]
  {
    hide InstsLines, InstLines;
    var c, t := SPOILT_FN, SPOILT_TAIL;
    var em1, em2, em3 := Define(em, 11), Define(Define(em, 11), 12), Define(Define(Define(em, 11), 12), 13);
    SpoiltInstLines(em);
    assert t == [t[0]] + t[1..] && t[1..] == [t[1]] + t[2..] && t[2..] == [t[2]] + [t[3]];
    PrintOne(c, em, t[0], t[1..]);
    PrintOne(c, em1, t[1], t[2..]);
    PrintOne(c, em2, t[2], [t[3]]);
    PrintLast(c, em3, t[3]);
    Pieces(SPOILT_LINES, [Ret]);
  }

  lemma Pieces(ls: seq<Line>, end: seq<Line>)
    requires |ls| >= 5
    ensures ls[..1] + (ls[1..3] + (ls[3..5] + (ls[5..] + end))) == ls + end
  {
  }

  lemma SpoiltCall(em: Em)
    requires em.out == em.reg == 0
    ensures InstLines(SPOILT_FN, em, Inst.Call(0, G, [Imm(0)])) == ([Mv(A(0), Zero), CallTo(1), Mv(T(0), A(0))],
                                                                    Define(em, 0))
  {
    ZeroArgLines(SPOILT_FN, em);
    assert SaveLines(SPOILT_FN, 0) == RestoreLines(SPOILT_FN, 0) == [];
    var ls := [Mv(A(0), Zero), CallTo(1), Mv(T(0), A(0))];
    assert [] + [Mv(A(0), Zero)] + [CallTo(1)] + [Mv(T(0), A(0))] + [] == ls;
  }

  lemma SpoiltPrinted()
    ensures ProgramLines(LowerProgram(Prog(SPOILT)).funcs) == SpoiltCode()
  {
    hide InstsLines, LowerFunc, FnOf, VarsOf, Loads, LoadLines, ProgramLines, AfterLoads, InstLines;
    SpoiltLowered();
    SpoiltContext();
    var c, call := SPOILT_FN, Inst.Call(0, G, [Imm(0)]);
    var em := Fresh(map[Of(X) := 52]);
    PrintedOne(SPOILT, c, SpoiltInsts());
    assert SpoiltInsts() == PARAM + ([call] + (Loads(10, 1) + SPOILT_TAIL));
    PrintParam(c, [call] + (Loads(10, 1) + SPOILT_TAIL));
    PrintOne(c, em, call, Loads(10, 1) + SPOILT_TAIL);
    SpoiltCall(em);
    PrintLoads(c, Define(em, 0), 10, 1, SPOILT_TAIL);
    AfterLoadsMeans(Define(em, 0), 10, 1);
    SpoiltTailLines(AfterLoads(Define(em, 0), 10, 1));
    SpoiltAll(LoadLines(c, 1, 10, 52));
  }

  lemma SpoiltAll(loads: seq<Line>)
    ensures [Mark(FuncLabel(0))] + [AddSp(-80), Sw(Ra, 76, Sp)] + [Mark(BlockLabel(0, 0))]
            + ([Sw(A(0), 52, Sp)] + ([Mv(A(0), Zero), CallTo(1), Mv(T(0), A(0))] + (loads + (SPOILT_LINES + [Ret]))))
         == [Mark(FuncLabel(0)), AddSp(-80), Sw(Ra, 76, Sp)] + [Mark(BlockLabel(0, 0)), Sw(A(0), 52, Sp),
                                                                Mv(A(0), Zero)]
            + [CallTo(1)] + ([Mv(T(0), A(0))] + loads) + SPOILT_LINES + [Ret]
  {
  }
}
