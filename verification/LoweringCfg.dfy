/**
 * The control-flow graph lowering builds: each block is listed once, jumps stay inside the function, and
 * every block the cursor has left is closed.
 */
module LoweringCfg {
  import opened Words
  import opened Source
  import opened Koopa
  import opened Lowering
  import opened LoweringShape
  import LoweringTheorem

  /** Terminators end blocks and stand nowhere else. */
  predicate EndsOnly(insts: seq<Inst>)
  {
    forall i :: 0 <= i < |insts| - 1 ==> !Terminator(insts[i])
  }

  /** Jumps go to blocks of the function other than its entry. */
  predicate Aims(i: Inst, n: nat)
  {
    && (i.Branch? ==> 0 < i.ifTrue < n && 0 < i.ifFalse < n)
    && (i.Jump? ==> 0 < i.target < n)
  }

  predicate AllAim(insts: seq<Inst>, n: nat) { forall i :: 0 <= i < |insts| ==> Aims(insts[i], n) }

  predicate EndsInReturn(insts: seq<Inst>) { insts != [] && insts[|insts| - 1].Return? }

  /** Each block made so far is in the function once, except those still to be listed. */
  ghost predicate Listed(s: State, unlisted: set<nat>)
  {
    && (forall b :: b in unlisted ==> b < |s.blocks|)
    && forall b: nat :: multiset(s.bbs)[b] == if b < |s.blocks| && b !in unlisted then 1 else 0
  }

  /** The graph while it is being built; the cursor has yet to come to the blocks in `ahead`. */
  ghost predicate Cfg(s: State, ahead: set<nat>, unlisted: set<nat>)
  {
    && s.cur < |s.blocks| && s.cur !in ahead && Listed(s, unlisted)
    && (forall b :: b in ahead ==> 0 < b < |s.blocks| && s.blocks[b] == [])
    && (forall b :: 0 <= b < |s.blocks| ==> EndsOnly(s.blocks[b]) && AllAim(s.blocks[b], |s.blocks|))
    && (forall b :: 0 <= b < |s.blocks| && b != s.cur && b !in ahead ==> Terminated(s.blocks[b]))
    && (Terminated(s.blocks[s.cur]) ==> EndsInReturn(s.blocks[s.cur]))
  }

  lemma CfgMeans(s: State, ahead: set<nat>, unlisted: set<nat>)
    requires Cfg(s, ahead, unlisted)
    ensures Valid(s)
    ensures forall b :: b in ahead ==> 0 < b < |s.blocks| && b != s.cur
  {
  }

  // ----- the elementary moves -----

  lemma CfgAppend(s: State, ahead: set<nat>, unlisted: set<nat>, i: Inst)
    requires Cfg(s, ahead, unlisted) && !i.Branch? && !i.Jump?
    ensures Cfg(Append(s, i), ahead, unlisted) && |Append(s, i).blocks| == |s.blocks|
  {
    hide Listed;
    assert Listed(Append(s, i), unlisted) by { SameList(s, Append(s, i), unlisted); }
  }

  lemma SameList(s: State, t: State, unlisted: set<nat>)
    requires Listed(s, unlisted) && t.bbs == s.bbs && |t.blocks| == |s.blocks|
    ensures Listed(t, unlisted)
  {
  }

  lemma CfgEmit(s: State, ahead: set<nat>, unlisted: set<nat>, i: Inst)
    requires Cfg(s, ahead, unlisted) && !Terminator(i)
    ensures Cfg(Emit(s, i), ahead, unlisted)
  {
    CfgSame(s, NewId(s), ahead, unlisted);
    CfgAppend(NewId(s), ahead, unlisted, i);
  }

  /** The context plays no part. */
  lemma CfgSame(s: State, t: State, ahead: set<nat>, unlisted: set<nat>)
    requires Cfg(s, ahead, unlisted) && t.blocks == s.blocks && t.bbs == s.bbs && t.cur == s.cur
    ensures Cfg(t, ahead, unlisted)
  {
    SameList(s, t, unlisted);
  }

  /** The cursor closes its block and goes to one ahead of it. */
  lemma CfgGo(s: State, ahead: set<nat>, unlisted: set<nat>, i: Inst, b: nat)
    requires Cfg(s, ahead, unlisted) && b in ahead && (i.Branch? || i.Jump?) && Aims(i, |s.blocks|)
    ensures Cfg(Append(s, i).(cur := b), ahead - {b}, unlisted)
  {
    hide Listed;
    var t := Append(s, i).(cur := b);
    SameList(s, t, unlisted);
    assert Terminated(t.blocks[s.cur]);
  }

  lemma CfgList(s: State, ahead: set<nat>, unlisted: set<nat>, b: nat)
    requires Cfg(s, ahead, unlisted) && b in unlisted
    ensures Cfg(s.(bbs := s.bbs + [b]), ahead, unlisted - {b})
  {
    assert multiset(s.bbs + [b]) == multiset(s.bbs) + multiset{b};
  }

  lemma CfgGoEnter(s: State, ahead: set<nat>, unlisted: set<nat>, i: Inst, b: nat)
    requires Cfg(s, ahead, unlisted) && b in ahead && b in unlisted && (i.Branch? || i.Jump?) && Aims(i, |s.blocks|)
    ensures Cfg(Enter(Append(s, i), b), ahead - {b}, unlisted - {b})
  {
    CfgGo(s, ahead, unlisted, i, b);
    CfgList(Append(s, i).(cur := b), ahead - {b}, unlisted, b);
  }

  /** The n numbers from b on. */
  function From(b: nat, n: nat): (r: set<nat>)
    ensures forall x :: x in r <==> b <= x < b + n
    decreases n
  {
    if n == 0 then {} else {b} + From(b + 1, n - 1)
  }

  lemma CfgNew(s: State, ahead: set<nat>, unlisted: set<nat>, n: nat)
    requires Cfg(s, ahead, unlisted)
    ensures Cfg(NewBlocks(s, n), ahead + From(|s.blocks|, n), unlisted + From(|s.blocks|, n))
    ensures |NewBlocks(s, n).blocks| == |s.blocks| + n
  {
    var t := NewBlocks(s, n);
    forall b | 0 <= b < |t.blocks| ensures EndsOnly(t.blocks[b]) && AllAim(t.blocks[b], |t.blocks|) {
      if b < |s.blocks| { assert AllAim(s.blocks[b], |s.blocks|); }
    }
  }

  // ----- expressions -----

  lemma {:induction false} ExpCfg(e: Exp, s: State, ahead: set<nat>, unlisted: set<nat>)
    requires Cfg(s, ahead, unlisted)
    ensures Cfg(LowerExp(e, s).0, ahead, unlisted)
    decreases e, 1
  {
    hide Cfg, AppendTo;
    match e
    case Num(_) =>
    case LVal(Constant(_)) =>
    case LVal(Variable(v)) => CfgEmit(s, ahead, unlisted, Load(s.next, Of(v)));
    case Call(f, args) =>
      CfgSame(s, NewId(s), ahead, unlisted);
      ArgsCfg(args, NewId(s), ahead, unlisted);
      var (s1, ops) := LowerArgs(args, NewId(s));
      CfgAppend(s1, ahead, unlisted, Inst.Call(s.next, f, ops));
    case Plus(e0) => ExpCfg(e0, s, ahead, unlisted);
    case Neg(e0) =>
      var (s1, r) := LowerExp(e0, s);
      ExpCfg(e0, s, ahead, unlisted);
      CfgEmit(s1, ahead, unlisted, Inst.Binary(s1.next, Sub, Imm(0), r));
    case Not(e0) =>
      var (s1, r) := LowerExp(e0, s);
      ExpCfg(e0, s, ahead, unlisted);
      CfgEmit(s1, ahead, unlisted, Inst.Binary(s1.next, BinOp.Eq, Imm(0), r));
    case Binary(op, l, r) =>
      var (s1, a) := LowerExp(l, s);
      var (s2, b) := LowerExp(r, s1);
      ExpCfg(l, s, ahead, unlisted);
      ExpCfg(r, s1, ahead, unlisted);
      CfgEmit(s2, ahead, unlisted, Inst.Binary(s2.next, op, a, b));
    case Logic(_, _, _) => LogicCfg(e, s, ahead, unlisted);
  }

  lemma {:induction false} ArgsCfg(es: Exps, s: State, ahead: set<nat>, unlisted: set<nat>)
    requires Cfg(s, ahead, unlisted)
    ensures Cfg(LowerArgs(es, s).0, ahead, unlisted)
  {
    hide Cfg;
    match es
    case NoExps =>
    case Exps(e, rest) =>
      ExpCfg(e, s, ahead, unlisted);
      ArgsCfg(rest, LowerExp(e, s).0, ahead, unlisted);
  }

  lemma LogicStartCfg(op: LogicOp, s: State, ahead: set<nat>, unlisted: set<nat>)
    requires Cfg(s, ahead, unlisted)
    ensures Cfg(LogicStart(op, s), ahead + {|s.blocks|, |s.blocks| + 1}, unlisted)
  {
    hide Cfg, AppendTo;
    var n := |s.blocks|;
    CfgMeans(s, ahead, unlisted);
    var s1 := NewBlocks(s, 2);
    CfgNew(s, ahead, unlisted, 2);
    assert From(n, 2) == {n, n + 1};
    assert n !in unlisted && n + 1 !in unlisted by { UnlistedBelow(s, ahead, unlisted); }
    CfgList(s1, ahead + From(n, 2), unlisted + From(n, 2), n);
    CfgList(s1.(bbs := s1.bbs + [n]), ahead + From(n, 2), unlisted + From(n, 2) - {n}, n + 1);
    assert unlisted + From(n, 2) - {n} - {n + 1} == unlisted;
    assert s.bbs + [n] + [n + 1] == s.bbs + [n, n + 1];
    var s2 := NewId(s1).(bbs := s.bbs + [n, n + 1]);
    CfgSame(s1.(bbs := s.bbs + [n] + [n + 1]), s2, ahead + From(n, 2), unlisted);
    var tmp := Temp(s.next);
    CfgAppend(s2, ahead + From(n, 2), unlisted, Alloc(tmp));
    CfgAppend(Append(s2, Alloc(tmp)), ahead + From(n, 2), unlisted, Inst.Store(Imm(LogicInit(op)), tmp));
  }

  lemma UnlistedBelow(s: State, ahead: set<nat>, unlisted: set<nat>)
    requires Cfg(s, ahead, unlisted)
    ensures forall b :: b in unlisted || b in ahead ==> b < |s.blocks|
  {
  }

  lemma {:induction false} LogicCfg(e: Exp, s: State, ahead: set<nat>, unlisted: set<nat>)
    requires Cfg(s, ahead, unlisted) && e.Logic?
    ensures Cfg(LowerExp(e, s).0, ahead, unlisted)
    decreases e, 0
  {
    hide Cfg, AppendTo, Extended, Grows, LogicStart;
    CfgMeans(s, ahead, unlisted);
    UnlistedBelow(s, ahead, unlisted);
    var s0, s1, s2, s3, s4 := LogicGrows(e, s);
    var n := |s.blocks|;
    var a0, a2 := ahead + {n, n + 1}, ahead + {n + 1};
    LogicStartCfg(e.lop, s, ahead, unlisted);
    ExpCfg(e.l, s0, a0, unlisted);
    var test := Inst.Binary(s1.next, LogicTest(e.lop), LowerExp(e.l, s0).1, Imm(0));
    CfgEmit(s1, a0, unlisted, test);
    CfgGo2(Emit(s1, test), a0, unlisted, Branch(Res(s1.next), n, n + 1), n);
    assert a0 - {n} == a2;
    ExpCfg(e.r, s2, a2, unlisted);
    var last := Inst.Binary(s3.next, Ne, LowerExp(e.r, s2).1, Imm(0));
    CfgEmit(s3, a2, unlisted, last);
    var store := Inst.Store(Res(s3.next), Temp(s.next));
    CfgAppend(Emit(s3, last), a2, unlisted, store);
    CfgGo2(Append(Emit(s3, last), store), a2, unlisted, Jump(n + 1), n + 1);
    assert a2 - {n + 1} == ahead;
    CfgEmit(s4, ahead, unlisted, Load(s4.next, Temp(s.next)));
  }

  /** A jump to blocks ahead stays inside the function. */
  lemma CfgGo2(s: State, ahead: set<nat>, unlisted: set<nat>, i: Inst, b: nat)
    requires Cfg(s, ahead, unlisted) && b in ahead && (i.Branch? ==> i.ifTrue in ahead && i.ifFalse in ahead)
    requires (i.Jump? ==> i.target in ahead) && (i.Branch? || i.Jump?)
    ensures Cfg(Append(s, i).(cur := b), ahead - {b}, unlisted)
    ensures b in unlisted ==> Cfg(Enter(Append(s, i), b), ahead - {b}, unlisted - {b})
  {
    CfgMeans(s, ahead, unlisted);
    CfgGo(s, ahead, unlisted, i, b);
    if b in unlisted { CfgGoEnter(s, ahead, unlisted, i, b); }
  }

  // ----- statements -----

  /** Inside a loop, its targets are blocks of the function. */
  predicate LoopAims(s: State, inWhile: bool)
  {
    inWhile ==> 0 < s.cond < |s.blocks| && 0 < s.end < |s.blocks|
  }

  lemma {:induction false} StmtCfg(st: Stmt, inWhile: bool, s: State, ahead: set<nat>, unlisted: set<nat>)
    requires Cfg(s, ahead, unlisted) && WellNested(st, inWhile) && LoopAims(s, inWhile)
    ensures Cfg(LowerStmt(st, s), ahead, unlisted)
    decreases st, 1
  {
    hide Cfg, AppendTo;
    match st
    case Empty =>
    case Assign(v, e) =>
      ExpCfg(e, s, ahead, unlisted);
      CfgAppend(LowerExp(e, s).0, ahead, unlisted, Inst.Store(LowerExp(e, s).1, Of(v)));
    case Eval(e) => ExpCfg(e, s, ahead, unlisted);
    case Block(items) =>
      ItemsCfg(items, inWhile, s, ahead, unlisted);
      CfgSame(LowerItems(items, s), LowerItems(items, s).(returned := false), ahead, unlisted);
    case Return(None) =>
      CfgAppend(s, ahead, unlisted, Inst.Return(None));
      CfgSame(Append(s, Inst.Return(None)), LowerStmt(st, s), ahead, unlisted);
    case Return(Some(e)) =>
      ExpCfg(e, s, ahead, unlisted);
      var (s1, op) := LowerExp(e, s);
      CfgAppend(s1, ahead, unlisted, Inst.Return(Some(op)));
      CfgSame(Append(s1, Inst.Return(Some(op))), LowerStmt(st, s), ahead, unlisted);
    case If(_, _, _) => IfCfg(st, inWhile, s, ahead, unlisted);
    case While(_, _) => WhileCfg(st, s, ahead, unlisted);
    case Break => LeaveCfg(s, s.end, ahead, unlisted);
    case Continue => LeaveCfg(s, s.cond, ahead, unlisted);
  }

  lemma LeaveCfg(s: State, target: nat, ahead: set<nat>, unlisted: set<nat>)
    requires Cfg(s, ahead, unlisted) && 0 < target < |s.blocks|
    ensures Cfg(Leave(s, target), ahead, unlisted)
  {
    hide Cfg, AppendTo;
    var n := |s.blocks|;
    UnlistedBelow(s, ahead, unlisted);
    CfgMeans(s, ahead, unlisted);
    CfgNew(s, ahead, unlisted, 1);
    var s1 := NewBlocks(s, 1);
    assert From(n, 1) == {n} && ahead + {n} - {n} == ahead && unlisted + {n} - {n} == unlisted;
    CfgList(s1, ahead + {n}, unlisted + {n}, n);
    CfgGo(s1.(bbs := s1.bbs + [n]), ahead + {n}, unlisted, Jump(target), n);
  }

  lemma {:induction false} IfCfg(st: Stmt, inWhile: bool, s: State, ahead: set<nat>, unlisted: set<nat>)
    requires Cfg(s, ahead, unlisted) && st.If? && WellNested(st, inWhile) && LoopAims(s, inWhile)
    ensures Cfg(LowerStmt(st, s), ahead, unlisted)
    decreases st, 0
  {
    hide Cfg, AppendTo, Extended, Grows, IfElse, LowerElse;
    var (s1, op) := LowerExp(st.cond, s);
    CfgMeans(s, ahead, unlisted);
    ExpCfg(st.cond, s, ahead, unlisted);
    ExpGrows(st.cond, s);
    GrowsMeans(s, s1);
    var t := |s1.blocks|;
    CfgMeans(s1, ahead, unlisted);
    UnlistedBelow(s1, ahead, unlisted);
    ThenGrows(st.cond, st.thn, s);
    ThreeNew(s1, ahead, unlisted, Branch(op, t, t + 1));
    var s2 := IfStart(op, s1);
    var s3 := LowerStmt(st.thn, s2);
    var a1, u1, a2, u2 := ahead + {t + 1, t + 2}, unlisted + {t + 1, t + 2}, ahead + {t + 2}, unlisted + {t + 2};
    IfStartGrows(op, s1);
    StmtCfg(st.thn, inWhile, s2, a1, u1);
    CfgSame(s3, s3.(returned := false), a1, u1);
    CfgGo2(s3.(returned := false), a1, u1, Jump(t + 2), t + 1);
    assert a1 - {t + 1} == a2 && u1 - {t + 1} == u2;
    var s4 := IfElse(t, s3);
    GrowsMeans(s1, s3);
    GrowsMeans(s1, s4);
    ElseGrows(s1, st.els, t, s4);
    if st.els.Some? {
      StmtCfg(st.els.value, inWhile, s4, a2, u2);
      CfgSame(LowerStmt(st.els.value, s4), ElseBody(st.els, s4), a2, u2);
    }
    CfgGo2(ElseBody(st.els, s4), a2, u2, Jump(t + 2), t + 2);
    assert a2 - {t + 2} == ahead && u2 - {t + 2} == unlisted;
  }

  /** Three blocks are made and the cursor goes to the first. */
  lemma ThreeNew(s: State, ahead: set<nat>, unlisted: set<nat>, i: Inst)
    requires Cfg(s, ahead, unlisted)
    requires var t := |s.blocks|; (i.Branch? && i.ifTrue == t && i.ifFalse == t + 1) || i == Jump(t)
    ensures var t := |s.blocks|;
            Cfg(Enter(Append(NewBlocks(s, 3), i), t), ahead + {t + 1, t + 2}, unlisted + {t + 1, t + 2})
  {
    var t := |s.blocks|;
    UnlistedBelow(s, ahead, unlisted);
    hide Cfg, AppendTo;
    CfgNew(s, ahead, unlisted, 3);
    assert From(t, 3) == {t, t + 1, t + 2};
    CfgGoEnter(NewBlocks(s, 3), ahead + From(t, 3), unlisted + From(t, 3), i, t);
    assert ahead + From(t, 3) - {t} == ahead + {t + 1, t + 2};
    assert unlisted + From(t, 3) - {t} == unlisted + {t + 1, t + 2};
  }

  lemma {:induction false} WhileCfg(st: Stmt, s: State, ahead: set<nat>, unlisted: set<nat>)
    requires Cfg(s, ahead, unlisted) && st.While? && WellNested(st.body, true)
    ensures Cfg(LowerStmt(st, s), ahead, unlisted)
    decreases st, 0
  {
    hide Cfg, AppendTo, Extended, Grows;
    var While(c, body) := st;
    var b := |s.blocks|;
    CfgMeans(s, ahead, unlisted);
    UnlistedBelow(s, ahead, unlisted);
    var a1, u1, a2, u2 := ahead + {b + 1, b + 2}, unlisted + {b + 1, b + 2}, ahead + {b + 2}, unlisted + {b + 2};
    ThreeNew(s, ahead, unlisted, Jump(b));
    var s0 := WhileStart(s);
    var (s1, op) := LowerExp(c, s0);
    WhileStartGrows(s);
    ExpGrows(c, s0);
    GrowsMeans(s0, s1);
    ExpCfg(c, s0, a1, u1);
    CfgGo2(s1, a1, u1, Branch(op, b + 1, b + 2), b + 1);
    assert a1 - {b + 1} == a2 && u1 - {b + 1} == u2;
    var s2 := WhileBody(b, op, s1);
    CfgSame(Enter(Append(s1, Branch(op, b + 1, b + 2)), b + 1), s2, a2, u2);
    assert LoopAims(s2, true) by { CfgMeans(s2, a2, u2); }
    StmtCfg(body, true, s2, a2, u2);
    var s3 := LowerStmt(body, s2);
    CfgMeans(s2, a2, u2);
    CfgMeans(s3, a2, u2);
    var s4 := s3.(returned := false, cond := s.cond, end := s.end);
    CfgSame(s3, s4, a2, u2);
    CfgGoEnter(s4, a2, u2, Jump(b), b + 2);
    assert a2 - {b + 2} == ahead && u2 - {b + 2} == unlisted;
  }

  lemma {:induction false} ItemsCfg(items: Items, inWhile: bool, s: State, ahead: set<nat>, unlisted: set<nat>)
    requires Cfg(s, ahead, unlisted) && ItemsWellNested(items, inWhile) && LoopAims(s, inWhile)
    ensures Cfg(LowerItems(items, s), ahead, unlisted)
  {
    hide Cfg, Grows;
    if items.Items? && !s.returned {
      var s1 := LowerItem(items.head, s);
      match items.head {
        case ConstDecl =>
        case VarDecl(defs) => DefsCfg(defs, s, ahead, unlisted);
        case Stm(st) => StmtCfg(st, inWhile, s, ahead, unlisted);
      }
      CfgMeans(s, ahead, unlisted);
      ItemGrows(items.head, s);
      GrowsMeans(s, s1);
      ItemsCfg(items.tail, inWhile, s1, ahead, unlisted);
    }
  }

  lemma {:induction false} DefsCfg(defs: Defs, s: State, ahead: set<nat>, unlisted: set<nat>)
    requires Cfg(s, ahead, unlisted)
    ensures Cfg(LowerDefs(defs, s), ahead, unlisted)
  {
    hide Cfg, AppendTo;
    match defs
    case NoDefs =>
    case Defs(VarDef(x, init), rest) =>
      var s1 := Append(s, Alloc(Of(Local(x))));
      CfgAppend(s, ahead, unlisted, Alloc(Of(Local(x))));
      if init.None? {
        DefsCfg(rest, s1, ahead, unlisted);
      } else {
        var (s2, op) := LowerExp(init.value, s1);
        ExpCfg(init.value, s1, ahead, unlisted);
        CfgAppend(s2, ahead, unlisted, Inst.Store(op, Of(Local(x))));
        DefsCfg(rest, Append(s2, Inst.Store(op, Of(Local(x)))), ahead, unlisted);
      }
  }

  // ----- functions -----

  lemma {:induction false} ParamsStraight(params: seq<nat>)
    ensures forall i :: 0 <= i < |ParamInsts(params)| ==> !Terminator(ParamInsts(params)[i])
  {
    if params != [] {
      ParamsStraight(params[..|params| - 1]);
    }
  }

  lemma StartCfg(params: seq<nat>)
    ensures Cfg(FuncStart(params), {}, {})
  {
    ParamsStraight(params);
    assert multiset(FuncStart(params).bbs) == multiset{0};
  }

  /** The last block is open or ends in `return`, so the return a void function gets is an ordinary append. */
  lemma EndCfg(isVoid: bool, s: State)
    requires Cfg(s, {}, {})
    ensures Cfg(FuncEnd(isVoid, s), {}, {})
    ensures FuncEnd(isVoid, s) == s || FuncEnd(isVoid, s) == Append(s, Inst.Return(None))
    ensures isVoid ==> Terminated(FuncEnd(isVoid, s).blocks[s.cur])
  {
    CfgAppend(s, {}, {}, Inst.Return(None));
  }

  lemma BodyCfg(fd: FuncDef)
    requires ItemsWellNested(fd.body, false)
    ensures Cfg(LowerBody(fd), {}, {})
    ensures fd.isVoid ==> Terminated(LowerBody(fd).blocks[LowerBody(fd).cur])
  {
    hide Cfg, FuncEnd;
    var s := FuncStart(fd.params);
    StartCfg(fd.params);
    ItemsCfg(fd.body, false, s, {}, {});
    var t := LowerItems(fd.body, s).(returned := false);
    CfgSame(LowerItems(fd.body, s), t, {}, {});
    EndCfg(fd.isVoid, t);
  }

  /** Any function: every block is listed exactly once, the entry first; jumps go to other listed blocks; a
      terminator is the last instruction of its block; every block but the last the cursor was on is
      terminated, and that one too in a void function. */
  lemma CfgWellFormed(fd: FuncDef)
    requires ItemsWellNested(fd.body, false)
    ensures var fn := LowerFunc(fd);
            && fn.bbs != [] && fn.bbs[0] == 0
            && (forall b: nat :: multiset(fn.bbs)[b] == if b < |fn.blocks| then 1 else 0)
            && (forall b :: 0 <= b < |fn.blocks| ==> EndsOnly(fn.blocks[b]) && AllAim(fn.blocks[b], |fn.blocks|))
            && (forall b :: 0 <= b < |fn.blocks| && b != LowerBody(fd).cur ==> Terminated(fn.blocks[b]))
            && (fd.isVoid ==> forall b :: 0 <= b < |fn.blocks| ==> Terminated(fn.blocks[b]))
  {
    hide LowerBody;
    BodyCfg(fd);
    LoweringTheorem.EntryFirst(fd);
  }
}
