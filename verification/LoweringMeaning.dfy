/**
 * Lowering preserves meaning: the blocks src/ir.c builds for a function body compute what the body
 * computes, and run forever exactly when it does.
 */
module LoweringMeaning {
  import opened Words
  import opened Source
  import opened Koopa
  import opened Lowering
  import opened LoweringShape

  /** The run stands where the next instruction will be appended. */
  predicate AtEnd(s: State, c: Config)
  {
    Open(s, s.cur) && c.At? && c.at == s.cur && c.pc == |s.blocks[s.cur]|
  }

  /** Values and temporaries made before state s are kept. */
  ghost predicate Keeps(s: State, c: Config, d: Config)
    requires c.At? && d.At?
  {
    && (forall i :: 0 <= i < s.next && i in c.regs ==> i in d.regs && d.regs[i] == c.regs[i])
    && (forall i :: 0 <= i < s.next && i in c.temps ==> i in d.temps && d.temps[i] == c.temps[i])
  }

  predicate Below(op: Operand, n: nat) { op.Res? ==> op.id < n }

  /** An appended instruction is the one that runs next. */
  lemma StepInst(g: Graph, k: Ctx, s: State, i: Inst, c: Config)
    requires AtEnd(s, c) && Extended(Append(s, i).blocks, g)
    ensures Step(g, k, c) == Execute(k, i, c) && Reaches(g, k, c, Execute(k, i, c))
    ensures !Terminator(i) && Execute(k, i, c).At? ==> AtEnd(Append(s, i), Execute(k, i, c))
  {
    var b := Append(s, i).blocks[s.cur];
    assert b <= g[s.cur] && b[|s.blocks[s.cur]|] == i;
    StepReaches(g, k, c);
  }

  /** The run from c reaches d after at least one step. */
  ghost predicate Advances(g: Graph, k: Ctx, c: Config, d: Config)
  {
    exists b: Config :: Reaches(g, k, c, b) && Step(g, k, b) == d
  }

  lemma AdvanceReaches(g: Graph, k: Ctx, c: Config, d: Config)
    requires Advances(g, k, c, d)
    ensures Reaches(g, k, c, d)
  {
    var b: Config :| Reaches(g, k, c, b) && Step(g, k, b) == d;
    StepReaches(g, k, b);
    Then(g, k, c, b, d);
  }

  lemma AdvanceLasts(g: Graph, k: Ctx, c: Config, d: Config, n: nat)
    requires Advances(g, k, c, d) && Lasts(g, k, d, n)
    ensures Lasts(g, k, c, n + 1)
  {
    var b: Config :| Reaches(g, k, c, b) && Step(g, k, b) == d;
    assert Steps(g, k, b, n + 1) == Steps(g, k, d, n);
    ThenLasts(g, k, c, b, n + 1);
  }

  // ----- expressions -----

  ghost predicate ExpSimulates(g: Graph, k: Ctx, e: Exp, s: State, c: Config, d: Config)
    requires c.At?
  {
    var (t, op) := LowerExp(e, s);
    match EvalExp(k.o, e, c.s)
    case Value(v, st) =>
      && Reaches(g, k, c, d) && AtEnd(t, d) && d.s == st && Keeps(s, c, d)
      && Below(op, t.next) && Koopa.Value(k, op, d.regs) == Some(v)
    case EvalWrong => Reaches(g, k, c, Halted(Stuck))
    case EvalHung => Reaches(g, k, c, Spinning)
  }

  ghost predicate ArgsSimulate(g: Graph, k: Ctx, es: Exps, s: State, c: Config, d: Config)
    requires c.At?
  {
    var (t, ops) := LowerArgs(es, s);
    match EvalArgs(k.o, es, c.s)
    case Values(vs, st) =>
      && Reaches(g, k, c, d) && AtEnd(t, d) && d.s == st && Keeps(s, c, d)
      && |ops| == |vs|
      && forall i :: 0 <= i < |ops| ==> Below(ops[i], t.next) && Koopa.Value(k, ops[i], d.regs) == Some(vs[i])
    case ArgsWrong => Reaches(g, k, c, Halted(Stuck))
    case ArgsHung => Reaches(g, k, c, Spinning)
  }

  lemma {:induction false} ValuesOf(k: Ctx, ops: seq<Operand>, regs: map<nat, Word>, vs: seq<Word>)
    requires |ops| == |vs| && forall i :: 0 <= i < |ops| ==> Koopa.Value(k, ops[i], regs) == Some(vs[i])
    ensures Koopa.Values(k, ops, regs) == Some(vs)
  {
    if ops != [] {
      var n := |ops| - 1;
      ValuesOf(k, ops[..n], regs, vs[..n]);
      assert vs == vs[..n] + [vs[n]];
    }
  }

  lemma {:induction false} SimExp(g: Graph, k: Ctx, e: Exp, s: State, c: Config) returns (d: Config)
    requires Valid(s) && AtEnd(s, c) && Extended(LowerExp(e, s).0.blocks, g)
    ensures ExpSimulates(g, k, e, s, c, d)
    decreases e, 1
  {
    match e
    case Num(_) => d := c; Stays(g, k, c);
    case LVal(Constant(_)) => d := c; Stays(g, k, c);
    case LVal(Variable(v)) =>
      d := Execute(k, Load(s.next, Of(v)), c);
      StepInst(g, k, NewId(s), Load(s.next, Of(v)), c);
    case Call(f, args) => d := SimCall(g, k, e, s, c);
    case Plus(e0) => d := SimExp(g, k, e0, s, c);
    case Neg(e0) => d := SimUnary(g, k, e, e0, s, c);
    case Not(e0) => d := SimUnary(g, k, e, e0, s, c);
    case Binary(_, _, _) => d := SimBinary(g, k, e, s, c);
    case Logic(_, _, _) => d := SimLogic(g, k, e, s, c);
  }

  lemma {:induction false} SimUnary(g: Graph, k: Ctx, e: Exp, e0: Exp, s: State, c: Config) returns (d: Config)
    requires Valid(s) && AtEnd(s, c) && Extended(LowerExp(e, s).0.blocks, g)
    requires (e.Neg? || e.Not?) && e0 == e.e
    ensures ExpSimulates(g, k, e, s, c, d)
    decreases e, 0
  {
    var (s1, r) := LowerExp(e0, s);
    var i := Inst.Binary(s1.next, if e.Neg? then Sub else BinOp.Eq, Imm(0), r);
    ExpGrows(e0, s);
    GrowsEmit(s1, s1, i);
    ExtendedThrough(s1.blocks, Emit(s1, i).blocks, g);
    d := SimExp(g, k, e0, s, c);
    if EvalExp(k.o, e0, c.s).Value? {
      StepInst(g, k, NewId(s1), i, d);
      Then(g, k, c, d, Execute(k, i, d));
      d := Execute(k, i, d);
    }
  }

  lemma {:induction false} SimBinary(g: Graph, k: Ctx, e: Exp, s: State, c: Config) returns (d: Config)
    requires Valid(s) && AtEnd(s, c) && Extended(LowerExp(e, s).0.blocks, g) && e.Binary?
    ensures ExpSimulates(g, k, e, s, c, d)
    decreases e, 0
  {
    var (s1, a) := LowerExp(e.l, s);
    var (s2, b) := LowerExp(e.r, s1);
    var i := Inst.Binary(s2.next, e.op, a, b);
    ExpGrows(e.l, s);
    ExpGrows(e.r, s1);
    GrowsEmit(s2, s2, i);
    ExtendedThrough(s2.blocks, Emit(s2, i).blocks, g);
    ExtendedThrough(s1.blocks, s2.blocks, g);
    d := SimExp(g, k, e.l, s, c);
    var l := EvalExp(k.o, e.l, c.s);
    if l.Value? {
      var d1 := d;
      var d2 := SimExp(g, k, e.r, s1, d1);
      d := d2;
      var r := EvalExp(k.o, e.r, l.s);
      if r.Value? {
        Then(g, k, c, d1, d2);
        StepInst(g, k, NewId(s2), i, d2);
        d := Execute(k, i, d2);
        Then(g, k, c, d2, d);
      } else {
        Then(g, k, c, d1, if r.EvalHung? then Spinning else Halted(Stuck));
      }
    }
  }

  lemma {:induction false} SimCall(g: Graph, k: Ctx, e: Exp, s: State, c: Config) returns (d: Config)
    requires Valid(s) && AtEnd(s, c) && Extended(LowerExp(e, s).0.blocks, g) && e.Call?
    ensures ExpSimulates(g, k, e, s, c, d)
    decreases e, 0
  {
    var (s1, ops) := LowerArgs(e.args, NewId(s));
    var i := Inst.Call(s.next, e.f, ops);
    ArgsGrow(e.args, NewId(s));
    GrowsAppendTo(s1, s1, s1.cur, i);
    ExtendedThrough(s1.blocks, Append(s1, i).blocks, g);
    d := SimArgs(g, k, e.args, NewId(s), c);
    var a := EvalArgs(k.o, e.args, c.s);
    if a.Values? {
      ValuesOf(k, ops, d.regs, a.vs);
      StepInst(g, k, s1, i, d);
      Then(g, k, c, d, Execute(k, i, d));
      d := Execute(k, i, d);
    }
  }

  lemma {:induction false} SimArgs(g: Graph, k: Ctx, es: Exps, s: State, c: Config) returns (d: Config)
    requires Valid(s) && AtEnd(s, c) && Extended(LowerArgs(es, s).0.blocks, g)
    ensures ArgsSimulate(g, k, es, s, c, d)
    decreases es, 0
  {
    match es
    case NoExps => d := c; Stays(g, k, c);
    case Exps(e, rest) =>
      var (s1, op) := LowerExp(e, s);
      var (s2, ops) := LowerArgs(rest, s1);
      ExpGrows(e, s);
      ArgsGrow(rest, s1);
      ExtendedThrough(s1.blocks, s2.blocks, g);
      d := SimExp(g, k, e, s, c);
      var r := EvalExp(k.o, e, c.s);
      if r.Value? {
        var d1 := d;
        d := SimArgs(g, k, rest, s1, d1);
        var rs := EvalArgs(k.o, rest, r.s);
        Then(g, k, c, d1, match rs case Values(_, _) => d case ArgsWrong => Halted(Stuck) case ArgsHung => Spinning);
      }
  }

  lemma LogicExtended(g: Graph, e: Exp, s: State)
    returns (s0: State, s1: State, s2: State, s3: State, s4: State)
    requires Valid(s) && e.Logic? && Extended(LowerExp(e, s).0.blocks, g)
    ensures LogicSteps(e, s, s0, s1, s2, s3, s4)
    ensures Valid(s0) && Valid(s1) && Valid(s2) && Valid(s3) && Valid(s4)
    ensures s.next < s0.next <= s1.next < s2.next <= s3.next < s4.next
    ensures s2.cur == |s.blocks| < |s2.blocks| && s2.blocks[s2.cur] == []
    ensures s4.cur == |s.blocks| + 1 < |s4.blocks| && s4.blocks[s4.cur] == []
    ensures Extended(s0.blocks, g) && Extended(s1.blocks, g) && Extended(s2.blocks, g)
    ensures Extended(s3.blocks, g) && Extended(s4.blocks, g)
  {
    hide Grows, Extended, LogicStart, LogicTurn, LogicJoin;
    s0, s1, s2, s3, s4 := LogicGrows(e, s);
    ExtendedThrough(s4.blocks, LowerExp(e, s).0.blocks, g);
    ExtendedThrough(s3.blocks, s4.blocks, g);
    ExtendedThrough(s2.blocks, s3.blocks, g);
    ExtendedThrough(s1.blocks, s2.blocks, g);
    ExtendedThrough(s0.blocks, s1.blocks, g);
  }

  lemma {:induction false} SimLogic(g: Graph, k: Ctx, e: Exp, s: State, c: Config) returns (d: Config)
    requires Valid(s) && AtEnd(s, c) && Extended(LowerExp(e, s).0.blocks, g) && e.Logic?
    ensures ExpSimulates(g, k, e, s, c, d)
    decreases e, 0
  {
    hide Reaches, Execute, Extended, AppendTo, LogicStart, LogicTurn, LogicJoin;
    var s0, s1, s2, s3, s4 := LogicExtended(g, e, s);
    var a := EvalExp(k.o, e.l, c.s);
    d := SimLogicLeft(g, k, e.lop, e.l, s, s0, s1, c);
    if a.Value? {
      var c2 := d;
      if (a.v == 0) == e.lop.Lor? {
        d := SimLogicRight(g, k, e.r, s.next, s2, s3, s4, c2);
        var b := EvalExp(k.o, e.r, a.s);
        Then(g, k, c, c2, if b.Value? then d else if b.EvalHung? then Spinning else Halted(Stuck));
      } else {
        d := SimLogicEnd(g, k, s.next, s4, c2, LogicInit(e.lop));
        Then(g, k, c, c2, d);
      }
    }
  }

  /** Up to the branch, which goes to the right side's block unless the left side decides. */
  lemma {:induction false} SimLogicLeft(g: Graph, k: Ctx, op: LogicOp, l: Exp, s: State, s0: State, s1: State,
                                        c: Config)
    returns (d: Config)
    requires Valid(s) && Valid(s0) && Valid(s1) && AtEnd(s, c)
    requires s0 == LogicStart(op, s) && s1 == LowerExp(l, s0).0 && s.next < s0.next <= s1.next
    requires Extended(s0.blocks, g) && Extended(s1.blocks, g)
    requires Extended(LogicTurn(op, LowerExp(l, s0).1, |s.blocks|, s1).blocks, g)
    ensures match EvalExp(k.o, l, c.s)
            case Value(v, st) =>
              && Reaches(g, k, c, d) && d.At? && d.s == st && Keeps(s, c, d)
              && d.at == (if (v == 0) == op.Lor? then |s.blocks| else |s.blocks| + 1) && d.pc == 0
              && s.next in d.temps && d.temps[s.next] == LogicInit(op)
            case EvalWrong => Reaches(g, k, c, Halted(Stuck))
            case EvalHung => Reaches(g, k, c, Spinning)
    decreases l, 2
  {
    hide Reaches, Execute, Extended, AppendTo, LogicStart, LogicTurn;
    var c0 := SimLogicStart(g, k, op, s, c);
    d := SimExp(g, k, l, s0, c0);
    var a := EvalExp(k.o, l, c.s);
    if a.Value? {
      var c1 := d;
      Then(g, k, c, c0, c1);
      d := SimLogicTurn(g, k, op, LowerExp(l, s0).1, |s.blocks|, s1, c1, a.v);
      Then(g, k, c, c1, d);
    } else {
      Then(g, k, c, c0, if a.EvalHung? then Spinning else Halted(Stuck));
    }
  }

  /** From the start of the right side's block to the end of the whole operator. */
  lemma {:induction false} SimLogicRight(g: Graph, k: Ctx, r: Exp, tmp: nat, s2: State, s3: State, s4: State, c: Config)
    returns (d: Config)
    requires Valid(s2) && Valid(s3) && Valid(s4) && AtEnd(s2, c) && s2.cur + 1 == s4.cur && s4.blocks[s4.cur] == []
    requires s3 == LowerExp(r, s2).0 && s4 == LogicJoin(LowerExp(r, s2).1, s2.cur, tmp, s3)
    requires tmp < s2.next <= s3.next < s4.next
    requires Extended(s3.blocks, g) && Extended(s4.blocks, g)
    requires Extended(Emit(s4, Load(s4.next, Temp(tmp))).blocks, g)
    ensures var t := Emit(s4, Load(s4.next, Temp(tmp)));
            match EvalExp(k.o, r, c.s)
            case Value(v, st) =>
              && Reaches(g, k, c, d) && AtEnd(t, d) && d.s == st && t.next == s4.next + 1
              && (forall i :: 0 <= i < tmp ==>
                   && (i in c.regs ==> i in d.regs && d.regs[i] == c.regs[i])
                   && (i in c.temps ==> i in d.temps && d.temps[i] == c.temps[i]))
              && s4.next in d.regs && d.regs[s4.next] == Bool(v != 0)
            case EvalWrong => Reaches(g, k, c, Halted(Stuck))
            case EvalHung => Reaches(g, k, c, Spinning)
    decreases r, 2
  {
    hide Reaches, Execute, Extended, AppendTo, LogicJoin, Emit;
    d := SimExp(g, k, r, s2, c);
    var b := EvalExp(k.o, r, c.s);
    if b.Value? {
      var c3 := d;
      var c4 := SimLogicJoin(g, k, LowerExp(r, s2).1, s2.cur, tmp, s3, c3, b.v);
      Then(g, k, c, c3, c4);
      d := SimLogicEnd(g, k, tmp, s4, c4, Bool(b.v != 0));
      Then(g, k, c, c4, d);
    }
  }

  /** The result slot holds the value of the short-cut. */
  lemma SimLogicStart(g: Graph, k: Ctx, op: LogicOp, s: State, c: Config) returns (d: Config)
    requires Valid(s) && AtEnd(s, c) && Extended(LogicStart(op, s).blocks, g)
    ensures Reaches(g, k, c, d) && AtEnd(LogicStart(op, s), d) && d.s == c.s && Keeps(s, c, d)
    ensures s.next in d.temps && d.temps[s.next] == LogicInit(op)
  {
    var tmp := Temp(s.next);
    var s1 := NewId(NewBlocks(s, 2)).(bbs := s.bbs + [|s.blocks|, |s.blocks| + 1]);
    var init := Inst.Store(Imm(LogicInit(op)), tmp);
    var s2 := Append(s1, Alloc(tmp));
    GrowsAppendTo(s2, s2, s2.cur, init);
    ExtendedThrough(s2.blocks, Append(s2, init).blocks, g);
    StepInst(g, k, s1, Alloc(tmp), c);
    var c1 := Execute(k, Alloc(tmp), c);
    StepInst(g, k, s2, init, c1);
    d := Execute(k, init, c1);
    Then(g, k, c, c1, d);
  }

  /** The branch goes to the right side exactly when the left one does not decide. */
  lemma SimLogicTurn(g: Graph, k: Ctx, op: LogicOp, l: Operand, rhs: nat, s: State, c: Config, v: Word)
    returns (d: Config)
    requires Valid(s) && AtEnd(s, c) && Extended(LogicTurn(op, l, rhs, s).blocks, g)
    requires Koopa.Value(k, l, c.regs) == Some(v)
    ensures Reaches(g, k, c, d) && d.At? && d.pc == 0 && d.s == c.s && Keeps(s, c, d)
    ensures d.at == if (v == 0) == op.Lor? then rhs else rhs + 1
  {
    var test := Inst.Binary(s.next, LogicTest(op), l, Imm(0));
    var br := Branch(Res(s.next), rhs, rhs + 1);
    var s1 := Emit(s, test);
    GrowsAppendTo(s1, s1, s1.cur, br);
    ExtendedThrough(s1.blocks, Append(s1, br).blocks, g);
    StepInst(g, k, NewId(s), test, c);
    var c1 := Execute(k, test, c);
    StepInst(g, k, s1, br, c1);
    d := Execute(k, br, c1);
    Then(g, k, c, c1, d);
  }

  lemma SimLogicJoin(g: Graph, k: Ctx, r: Operand, rhs: nat, tmp: nat, s: State, c: Config, v: Word)
    returns (d: Config)
    requires Valid(s) && AtEnd(s, c) && Extended(LogicJoin(r, rhs, tmp, s).blocks, g)
    requires Koopa.Value(k, r, c.regs) == Some(v) && tmp < s.next
    ensures Reaches(g, k, c, d) && d.At? && d.pc == 0 && d.at == rhs + 1 && d.s == c.s
    ensures d.temps == c.temps[tmp := Bool(v != 0)]
    ensures forall i :: 0 <= i < s.next && i in c.regs ==> i in d.regs && d.regs[i] == c.regs[i]
  {
    var test, st := Inst.Binary(s.next, Ne, r, Imm(0)), Inst.Store(Res(s.next), Temp(tmp));
    var s1 := Emit(s, test);
    var s2 := Append(s1, st);
    GrowsAppendTo(s2, s2, s2.cur, Jump(rhs + 1));
    ExtendedThrough(s2.blocks, Append(s2, Jump(rhs + 1)).blocks, g);
    GrowsAppendTo(s1, s1, s1.cur, st);
    ExtendedThrough(s1.blocks, s2.blocks, g);
    StepInst(g, k, NewId(s), test, c);
    var c1 := Execute(k, test, c);
    StepInst(g, k, s1, st, c1);
    var c2 := Execute(k, st, c1);
    StepInst(g, k, s2, Jump(rhs + 1), c2);
    d := Execute(k, Jump(rhs + 1), c2);
    Then(g, k, c, c1, c2);
    Then(g, k, c, c2, d);
  }

  /** In the last block the result is loaded. */
  lemma SimLogicEnd(g: Graph, k: Ctx, tmp: nat, s4: State, c: Config, v: Word) returns (d: Config)
    requires Valid(s4) && s4.blocks[s4.cur] == [] && c.At? && c.at == s4.cur && c.pc == 0
    requires Extended(Emit(s4, Load(s4.next, Temp(tmp))).blocks, g)
    requires tmp < s4.next && tmp in c.temps && c.temps[tmp] == v
    ensures Reaches(g, k, c, d) && AtEnd(Emit(s4, Load(s4.next, Temp(tmp))), d)
    ensures d == c.(pc := 1, regs := c.regs[s4.next := v])
    ensures Emit(s4, Load(s4.next, Temp(tmp))).next == s4.next + 1
  {
    var i := Load(s4.next, Temp(tmp));
    StepInst(g, k, NewId(s4), i, c);
    d := Execute(k, i, c);
  }

  // ----- statements -----

  /** Where a run of statement st, lowered from state s to state t, gets to. */
  ghost predicate Follows(g: Graph, k: Ctx, fuel: nat, r: Outcome, s: State, t: State, c: Config, d: Config)
  {
    match r
    case Normal(st) => Reaches(g, k, c, d) && AtEnd(t, d) && d.s == st
    case Broke(st) => Reaches(g, k, c, d) && d.At? && d.at == s.end && d.pc == 0 && d.s == st
    case Continued(st) => Reaches(g, k, c, d) && d.At? && d.at == s.cond && d.pc == 0 && d.s == st
    case Returned(v, w) => Reaches(g, k, c, Halted(Done(v, w)))
    case Wrong => Reaches(g, k, c, Halted(Stuck))
    case OutOfFuel => Lasts(g, k, c, fuel)
  }

  /** Prefixing a run to one that follows its statement. */
  lemma FollowsAfter(g: Graph, k: Ctx, fuel: nat, r: Outcome, s: State, t: State, b: Config, c: Config, d: Config)
    requires Reaches(g, k, b, c) && Follows(g, k, fuel, r, s, t, c, d)
    ensures Follows(g, k, fuel, r, s, t, b, d)
  {
    match r
    case Returned(v, w) => Then(g, k, b, c, Halted(Done(v, w)));
    case Wrong => Then(g, k, b, c, Halted(Stuck));
    case OutOfFuel => ThenLasts(g, k, b, c, fuel);
    case _ => Then(g, k, b, c, d);
  }

  lemma ExpFails(g: Graph, k: Ctx, fuel: nat, e: Exp, s: State, t: State, c: Config, d: Config)
    requires c.At? && ExpSimulates(g, k, e, s, c, d) && !EvalExp(k.o, e, c.s).Value?
    ensures Follows(g, k, fuel, Failed(EvalExp(k.o, e, c.s)), s, t, c, d)
  {
    if EvalExp(k.o, e, c.s).EvalHung? {
      SpinningLasts(g, k, c, fuel);
    }
  }

  /** An expression followed by one more instruction that consumes it. */
  lemma SimExpThen(g: Graph, k: Ctx, e: Exp, s: State, i: Inst, c: Config) returns (d: Config)
    requires Valid(s) && AtEnd(s, c) && Extended(Append(LowerExp(e, s).0, i).blocks, g)
    ensures ExpSimulates(g, k, e, s, c, d)
    ensures EvalExp(k.o, e, c.s).Value? ==>
              var n := Execute(k, i, d);
              && Reaches(g, k, c, n) && Step(g, k, d) == n
              && (!Terminator(i) && n.At? ==> AtEnd(Append(LowerExp(e, s).0, i), n))
  {
    var s1 := LowerExp(e, s).0;
    ExpGrows(e, s);
    GrowsSelf(s1);
    GrowsAppendTo(s1, s1, s1.cur, i);
    ExtendedThrough(s1.blocks, Append(s1, i).blocks, g);
    d := SimExp(g, k, e, s, c);
    if EvalExp(k.o, e, c.s).Value? {
      StepInst(g, k, s1, i, d);
      Then(g, k, c, d, Execute(k, i, d));
    }
  }

  lemma {:induction false} SimStmt(g: Graph, k: Ctx, fuel: nat, st: Stmt, s: State, c: Config) returns (d: Config)
    requires Valid(s) && !s.returned && AtEnd(s, c) && Extended(LowerStmt(st, s).blocks, g)
    ensures Follows(g, k, fuel, Exec(k.o, fuel, st, c.s), s, LowerStmt(st, s), c, d)
    decreases fuel, st, 1
  {
    hide Reaches, Lasts, Extended, Emit;
    match st
    case Empty => d := c; Stays(g, k, c);
    case Assign(v, e) => d := SimAssign(g, k, fuel, v, e, s, c);
    case Eval(e) =>
      d := SimExp(g, k, e, s, c);
      if !EvalExp(k.o, e, c.s).Value? { ExpFails(g, k, fuel, e, s, LowerStmt(st, s), c, d); }
    case Block(items) =>
      d := SimItems(g, k, fuel, items, s, c);
    case Return(ret) => d := SimReturn(g, k, fuel, ret, s, c);
    case If(_, _, _) => d := SimIf(g, k, fuel, st, s, c);
    case While(_, _) => d := SimWhile(g, k, fuel, st, s, c);
    case Break => d := SimLeave(g, k, s, s.end, c);
    case Continue => d := SimLeave(g, k, s, s.cond, c);
  }

  lemma SimAssign(g: Graph, k: Ctx, fuel: nat, v: Var, e: Exp, s: State, c: Config) returns (d: Config)
    requires Valid(s) && AtEnd(s, c) && Extended(LowerStmt(Assign(v, e), s).blocks, g)
    ensures Follows(g, k, fuel, Exec(k.o, fuel, Assign(v, e), c.s), s, LowerStmt(Assign(v, e), s), c, d)
  {
    hide Reaches, Lasts, Extended;
    var i := Inst.Store(LowerExp(e, s).1, Of(v));
    d := SimExpThen(g, k, e, s, i, c);
    if EvalExp(k.o, e, c.s).Value? {
      d := Execute(k, i, d);
    } else {
      ExpFails(g, k, fuel, e, s, LowerStmt(Assign(v, e), s), c, d);
    }
  }

  lemma SimReturn(g: Graph, k: Ctx, fuel: nat, ret: Option<Exp>, s: State, c: Config) returns (d: Config)
    requires Valid(s) && AtEnd(s, c) && Extended(LowerStmt(Stmt.Return(ret), s).blocks, g)
    ensures Follows(g, k, fuel, Exec(k.o, fuel, Stmt.Return(ret), c.s), s, LowerStmt(Stmt.Return(ret), s), c, d)
  {
    hide Reaches, Lasts, Extended;
    match ret
    case None =>
      StepInst(g, k, s, Inst.Return(None), c);
      d := c;
    case Some(e) =>
      d := SimExpThen(g, k, e, s, Inst.Return(Some(LowerExp(e, s).1)), c);
      if !EvalExp(k.o, e, c.s).Value? {
        ExpFails(g, k, fuel, e, s, LowerStmt(Stmt.Return(ret), s), c, d);
      }
  }

  lemma SimLeave(g: Graph, k: Ctx, s: State, target: nat, c: Config) returns (d: Config)
    requires Valid(s) && AtEnd(s, c) && Extended(Leave(s, target).blocks, g)
    ensures Reaches(g, k, c, d) && d.At? && d.at == target && d.pc == 0 && d.s == c.s
  {
    var s1 := NewBlocks(s, 1).(bbs := s.bbs + [|s.blocks|]);
    d := Execute(k, Jump(target), c);
    StepInst(g, k, s1, Jump(target), c);
  }

  /** A condition and the branch on it. */
  lemma SimCond(g: Graph, k: Ctx, e: Exp, s: State, yes: nat, no: nat, c: Config) returns (d: Config)
    requires Valid(s) && AtEnd(s, c)
    requires Extended(Append(LowerExp(e, s).0, Branch(LowerExp(e, s).1, yes, no)).blocks, g)
    ensures match EvalExp(k.o, e, c.s)
            case Value(v, st) =>
              && Reaches(g, k, c, d) && d.At? && d.at == (if v != 0 then yes else no) && d.pc == 0 && d.s == st
              && Advances(g, k, c, d)
            case EvalWrong => Reaches(g, k, c, Halted(Stuck))
            case EvalHung => Reaches(g, k, c, Spinning)
  {
    var i := Branch(LowerExp(e, s).1, yes, no);
    d := SimExpThen(g, k, e, s, i, c);
    if EvalExp(k.o, e, c.s).Value? {
      d := Execute(k, i, d);
    }
  }

  /** Appending looks only at the blocks and the cursor. */
  lemma AppendBlocks(s: State, t: State, i: Inst)
    requires s.blocks == t.blocks && s.cur == t.cur
    ensures Append(s, i).blocks == Append(t, i).blocks
  {
  }

  /** The states an `if` passes through up to the start of its `else` part, seen from the finished function. */
  lemma ThenExtended(g: Graph, c: Exp, thn: Stmt, s: State)
    requires Valid(s)
    requires var s1 := LowerExp(c, s).0;
             Extended(IfElse(|s1.blocks|, LowerStmt(thn, IfStart(LowerExp(c, s).1, s1))).blocks, g)
    ensures var (s1, op) := LowerExp(c, s);
            var t := |s1.blocks|;
            var s2 := IfStart(op, s1);
            var s3 := LowerStmt(thn, s2);
            var s4 := IfElse(t, s3);
            && Extended(Append(s1, Branch(op, t, t + 1)).blocks, g)
            && Valid(s2) && s2.cur == t && s2.blocks[t] == [] && SameContext(s, s2)
            && Valid(s3) && Extended(s3.blocks, g) && Extended(Append(s3, Jump(t + 2)).blocks, g)
  {
    var (s1, op) := LowerExp(c, s);
    var t := |s1.blocks|;
    var s2 := IfStart(op, s1);
    var s3 := LowerStmt(thn, s2);
    hide Grows, Extended, AppendTo, NewBlocks, IfStart, IfElse;
    ThenGrows(c, thn, s);
    ExpGrows(c, s);
    GrowsMeans(s, s1);
    IfStartGrows(op, s1);
    StmtGrows(thn, s2);
    GrowsMeans(s2, s3);
    BranchFirst(s1, op);
    AppendBlocks(s3, s3.(returned := false), Jump(t + 2));
    ExtendedThrough(s3.blocks, IfElse(t, s3).blocks, g);
    ExtendedThrough(s2.blocks, s3.blocks, g);
    ExtendedThrough(Append(s1, Branch(op, t, t + 1)).blocks, s2.blocks, g);
  }

  lemma BranchFirst(s: State, op: Operand)
    requires Valid(s)
    ensures Extended(Append(s, Branch(op, |s.blocks|, |s.blocks| + 1)).blocks, IfStart(op, s).blocks)
  {
  }

  /** The whole `if`: its states up to the `else` part, that part, and the block after it. */
  lemma IfExtended(g: Graph, st: Stmt, s: State)
    requires Valid(s) && st.If? && Extended(LowerStmt(st, s).blocks, g)
    ensures var (s1, op) := LowerExp(st.cond, s);
            var t := |s1.blocks|;
            var s4 := IfElse(t, LowerStmt(st.thn, IfStart(op, s1)));
            var u := LowerElse(st.els, t, s4);
            && Extended(s4.blocks, g)
            && Valid(s4) && s4.cur == t + 1 && s4.blocks[t + 1] == [] && s4.cond == s.cond && s4.end == s.end
            && !s4.returned
            && Valid(u) && u.cur == t + 2 && u.blocks[t + 2] == []
            && (st.els.None? ==> Extended(Append(s4, Jump(t + 2)).blocks, g))
            && (st.els.Some? ==>
                 var s5 := LowerStmt(st.els.value, s4);
                 Valid(s5) && Extended(s5.blocks, g) && Extended(Append(s5, Jump(t + 2)).blocks, g))
  {
    hide Grows, Extended, AppendTo, NewBlocks, IfStart, IfElse, LowerElse;
    var (s1, op) := LowerExp(st.cond, s);
    var t := |s1.blocks|;
    var s4 := IfElse(t, LowerStmt(st.thn, IfStart(op, s1)));
    var s5 := ElseBody(st.els, s4);
    var u := LowerElse(st.els, t, s4);
    ThenGrows(st.cond, st.thn, s);
    ExpGrows(st.cond, s);
    GrowsMeans(s, s1);
    ElseGrows(s, st.els, t, s4);
    ExtendedThrough(s4.blocks, u.blocks, g);
    GrowsSelf(s5);
    GrowsAppendTo(s5, s5, s5.cur, Jump(t + 2));
    ExtendedThrough(s5.blocks, u.blocks, g);
    if st.els.Some? {
      AppendBlocks(s5, LowerStmt(st.els.value, s4), Jump(t + 2));
    }
  }

  lemma {:induction false} SimIf(g: Graph, k: Ctx, fuel: nat, st: Stmt, s: State, c: Config) returns (d: Config)
    requires Valid(s) && !s.returned && AtEnd(s, c) && Extended(LowerStmt(st, s).blocks, g) && st.If?
    ensures Follows(g, k, fuel, Exec(k.o, fuel, st, c.s), s, LowerStmt(st, s), c, d)
    decreases fuel, st, 0
  {
    hide Reaches, Lasts, Extended, AppendTo, IfStart, IfElse, LowerElse;
    var (s1, op) := LowerExp(st.cond, s);
    var t := |s1.blocks|;
    var s2 := IfStart(op, s1);
    var s4 := IfElse(t, LowerStmt(st.thn, s2));
    var u := LowerElse(st.els, t, s4);
    IfExtended(g, st, s);
    ThenExtended(g, st.cond, st.thn, s);
    d := SimCond(g, k, st.cond, s, t, t + 1, c);
    var r := EvalExp(k.o, st.cond, c.s);
    if r.Value? {
      var c1 := d;
      AdvanceReaches(g, k, c, c1);
      if r.v != 0 {
        d := SimThenJump(g, k, fuel, st.thn, s2, u, c1);
      } else if st.els.Some? {
        d := SimThenJump(g, k, fuel, st.els.value, s4, u, c1);
      } else {
        d := Execute(k, Jump(t + 2), c1);
        StepInst(g, k, s4, Jump(t + 2), c1);
      }
      FollowsAfter(g, k, fuel, Exec(k.o, fuel, st, c.s), s, u, c, c1, d);
    } else {
      ExpFails(g, k, fuel, st.cond, s, u, c, d);
    }
  }

  /** A statement whose last block jumps to the block that u stands at the start of. */
  lemma {:induction false} SimThenJump(g: Graph, k: Ctx, fuel: nat, st: Stmt, s: State, u: State, c: Config)
    returns (d: Config)
    requires Valid(s) && !s.returned && AtEnd(s, c) && Valid(LowerStmt(st, s)) && Valid(u) && u.blocks[u.cur] == []
    requires Extended(LowerStmt(st, s).blocks, g) && Extended(Append(LowerStmt(st, s), Jump(u.cur)).blocks, g)
    ensures Follows(g, k, fuel, Exec(k.o, fuel, st, c.s), s, u, c, d)
    decreases fuel, st, 2
  {
    hide Reaches, Lasts, Extended;
    d := SimStmt(g, k, fuel, st, s, c);
    if Exec(k.o, fuel, st, c.s).Normal? {
      var d1 := d;
      StepInst(g, k, LowerStmt(st, s), Jump(u.cur), d1);
      d := Execute(k, Jump(u.cur), d1);
      Then(g, k, c, d1, d);
    }
  }

  /** The states a `while` passes through, seen from the finished function. */
  lemma WhileExtended(g: Graph, st: Stmt, s: State)
    requires Valid(s) && st.While? && Extended(LowerStmt(st, s).blocks, g)
    ensures var b := |s.blocks|;
            var s0 := WhileStart(s);
            var (s1, op) := LowerExp(st.cond, s0);
            var s2 := WhileBody(b, op, s1);
            var s3 := LowerStmt(st.body, s2);
            var u := WhileEnd(s, s3);
            && Extended(Append(NewBlocks(s, 3), Jump(b)).blocks, g)
            && Valid(s0) && s0.cur == b && s0.blocks[b] == []
            && Extended(Append(s1, Branch(op, b + 1, b + 2)).blocks, g)
            && Valid(s2) && s2.cur == b + 1 && s2.blocks[b + 1] == [] && s2.cond == b && s2.end == b + 2
            && s2.returned == s.returned
            && Valid(s3) && Extended(s3.blocks, g) && Extended(Append(s3, Jump(b)).blocks, g)
            && Valid(u) && u.cur == b + 2 && u.blocks[b + 2] == []
  {
    hide Grows, Extended, AppendTo, WhileStart, NewBlocks;
    var b := |s.blocks|;
    var s0 := WhileStart(s);
    var (s1, op) := LowerExp(st.cond, s0);
    var s2 := WhileBody(b, op, s1);
    var s3 := LowerStmt(st.body, s2);
    WhileCondShape(st.cond, s);
    StmtGrows(st.body, s2);
    GrowsMeans(s2, s3);
    GrowsSelf(s3);
    GrowsAppendTo(s3, s3, s3.cur, Jump(b));
    AppendBlocks(s3, s3.(returned := false, cond := s.cond, end := s.end), Jump(b));
    ExtendedThrough(s3.blocks, Append(s3, Jump(b)).blocks, g);
    ExtendedThrough(s2.blocks, s3.blocks, g);
    ExtendedThrough(s0.blocks, s2.blocks, g);
  }

  /** From the start of a `while` to the start of its body. */
  lemma WhileCondShape(c: Exp, s: State)
    requires Valid(s)
    ensures var b := |s.blocks|;
            var s0 := WhileStart(s);
            var (s1, op) := LowerExp(c, s0);
            var s2 := WhileBody(b, op, s1);
            && s0.blocks == Append(NewBlocks(s, 3), Jump(b)).blocks && Valid(s0) && s0.cur == b && s0.blocks[b] == []
            && s2.blocks == Append(s1, Branch(op, b + 1, b + 2)).blocks && Extended(s0.blocks, s2.blocks)
            && Valid(s2) && s2.cur == b + 1 && b + 2 < |s2.blocks| && s2.blocks[b + 1] == s2.blocks[b + 2] == []
            && s2.returned == s.returned
  {
    var b := |s.blocks|;
    var s0 := WhileStart(s);
    var (s1, op) := LowerExp(c, s0);
    hide Grows, Extended, AppendTo, NewBlocks;
    WhileStartGrows(s);
    ExpGrows(c, s0);
    GrowsMeans(s0, s1);
    GrowsSelf(s1);
    GrowsAppendTo(s1, s1, s1.cur, Branch(op, b + 1, b + 2));
    ExtendedThrough(s0.blocks, s1.blocks, WhileBody(b, op, s1).blocks);
  }

  lemma {:induction false} SimWhile(g: Graph, k: Ctx, fuel: nat, st: Stmt, s: State, c: Config) returns (d: Config)
    requires Valid(s) && !s.returned && AtEnd(s, c) && Extended(LowerStmt(st, s).blocks, g) && st.While?
    ensures Follows(g, k, fuel, Exec(k.o, fuel, st, c.s), s, LowerStmt(st, s), c, d)
    decreases fuel, st, 0
  {
    hide Reaches, Advances, Lasts, Extended, AppendTo, WhileStart, WhileBody, WhileEnd;
    WhileExtended(g, st, s);
    var i := Jump(|s.blocks|);
    StepInst(g, k, NewBlocks(s, 3), i, c);
    var c0 := Execute(k, i, c);
    d := SimLoop(g, k, fuel, st, s, c0);
    FollowsAfter(g, k, fuel, Exec(k.o, fuel, st, c.s), s, LowerStmt(st, s), c, c0, d);
  }

  /** From the start of the condition's block, once around the loop for each unit of fuel. */
  lemma {:induction false} SimLoop(g: Graph, k: Ctx, fuel: nat, st: Stmt, s: State, c: Config) returns (d: Config)
    requires Valid(s) && !s.returned && Extended(LowerStmt(st, s).blocks, g) && st.While?
    requires c.At? && c.at == |s.blocks| && c.pc == 0
    ensures Follows(g, k, fuel, Exec(k.o, fuel, st, c.s), s, LowerStmt(st, s), c, d)
    decreases fuel, st.body, 4
  {
    hide Reaches, Advances, Lasts, Extended, LowerStmt;
    if fuel > 0 {
      d := SimLoopCond(g, k, st, s, c);
      var r := EvalExp(k.o, st.cond, c.s);
      if r.Value? {
        var c1 := d;
        if r.v != 0 {
          d := SimAround(g, k, fuel, st, s, BodyStart(st, s), c1);
          FollowsAdvance(g, k, fuel, Exec(k.o, fuel, st, c.s), s, LowerStmt(st, s), c, c1, d);
        } else {
          AdvanceReaches(g, k, c, c1);
        }
      } else {
        LoopFails(g, k, fuel, r, s, LowerStmt(st, s), c, d);
      }
    } else {
      d := c;
      LastsZero(g, k, c);
    }
  }

  lemma LastsZero(g: Graph, k: Ctx, c: Config)
    requires c.At?
    ensures Lasts(g, k, c, 0)
  {
  }

  lemma LoopFails(g: Graph, k: Ctx, fuel: nat, r: EvalResult, s: State, t: State, c: Config, d: Config)
    requires match r
             case Value(_, _) => false
             case EvalWrong => Reaches(g, k, c, Halted(Stuck))
             case EvalHung => Reaches(g, k, c, Spinning)
    ensures Follows(g, k, fuel, Failed(r), s, t, c, d)
  {
    if r.EvalHung? {
      SpinningLasts(g, k, c, fuel);
    }
  }

  /** The state at the start of a loop's body. */
  function BodyStart(st: Stmt, s: State): State
    requires st.While?
  {
    var (s1, op) := LowerExp(st.cond, WhileStart(s));
    WhileBody(|s.blocks|, op, s1)
  }

  /** The condition of a loop takes the run into the body or past the loop. */
  lemma SimLoopCond(g: Graph, k: Ctx, st: Stmt, s: State, c: Config) returns (d: Config)
    requires Valid(s) && !s.returned && Extended(LowerStmt(st, s).blocks, g) && st.While?
    requires c.At? && c.at == |s.blocks| && c.pc == 0
    ensures match EvalExp(k.o, st.cond, c.s)
            case Value(v, t) =>
              && Advances(g, k, c, d) && d.At? && d.s == t
              && AtEnd(if v != 0 then BodyStart(st, s) else LowerStmt(st, s), d)
            case EvalWrong => Reaches(g, k, c, Halted(Stuck))
            case EvalHung => Reaches(g, k, c, Spinning)
  {
    hide Reaches, Advances, Extended, AppendTo, WhileStart, WhileBody, WhileEnd;
    WhileExtended(g, st, s);
    d := SimCond(g, k, st.cond, WhileStart(s), |s.blocks| + 1, |s.blocks| + 2, c);
  }

  lemma FollowsAdvance(g: Graph, k: Ctx, fuel: nat, r: Outcome, s: State, t: State, b: Config, c: Config, d: Config)
    requires fuel > 0 && Advances(g, k, b, c) && Follows(g, k, fuel - 1, r, s, t, c, d)
    ensures Follows(g, k, fuel, r, s, t, b, d)
  {
    if r.OutOfFuel? {
      AdvanceLasts(g, k, b, c, fuel - 1);
    } else {
      AdvanceReaches(g, k, b, c);
      FollowsAfter(g, k, fuel - 1, r, s, t, b, c, d);
    }
  }

  /** The body, and then either out of the loop or around it with less fuel. */
  lemma {:induction false} SimAround(g: Graph, k: Ctx, fuel: nat, st: Stmt, s: State, s2: State, c: Config)
    returns (d: Config)
    requires Valid(s) && !s.returned && Extended(LowerStmt(st, s).blocks, g) && st.While? && fuel > 0
    requires s2 == BodyStart(st, s) && AtEnd(s2, c)
    ensures Follows(g, k, fuel - 1, Around(k.o, fuel - 1, st, Exec(k.o, fuel - 1, st.body, c.s)), s, LowerStmt(st, s),
                    c, d)
    decreases fuel, st.body, 3
  {
    hide Reaches, Advances, Lasts, Extended, AppendTo, WhileStart, WhileBody, WhileEnd;
    WhileExtended(g, st, s);
    d := SimThenJump(g, k, fuel - 1, st.body, s2, WhileStart(s), c);
    var b := Exec(k.o, fuel - 1, st.body, c.s);
    if b.Normal? || b.Continued? {
      var d1 := d;
      d := SimLoop(g, k, fuel - 1, st, s, d1);
      FollowsAfter(g, k, fuel - 1, Exec(k.o, fuel - 1, st, b.s), s, LowerStmt(st, s), c, d1, d);
    }
  }

  lemma {:induction false} SimItems(g: Graph, k: Ctx, fuel: nat, items: Items, s: State, c: Config) returns (d: Config)
    requires Valid(s) && !s.returned && AtEnd(s, c) && Extended(LowerItems(items, s).blocks, g)
    ensures Follows(g, k, fuel, ExecItems(k.o, fuel, items, c.s), s, LowerItems(items, s), c, d)
    decreases fuel, items, 0
  {
    hide Reaches, Lasts, Extended, AppendTo;
    if items.NoItems? {
      d := c;
      Stays(g, k, c);
    } else {
      var s1 := LowerItem(items.head, s);
      ItemGrows(items.head, s);
      GrowsMeans(s, s1);
      ItemsGrow(items.tail, s1);
      GrowsMeans(s1, LowerItems(items.tail, s1));
      ExtendedThrough(s1.blocks, LowerItems(items.tail, s1).blocks, g);
      d := SimItem(g, k, fuel, items.head, s, c);
      var r := ExecItem(k.o, fuel, items.head, c.s);
      if r.Normal? {
        var d1 := d;
        ReturnIsNotNormal(k.o, fuel, items.head, c.s);
        d := SimItems(g, k, fuel, items.tail, s1, d1);
        FollowsAfter(g, k, fuel, ExecItems(k.o, fuel, items, c.s), s, LowerItems(items, s), c, d1, d);
      }
    }
  }

  /** The items that `m_returned` skips are never reached. */
  lemma ReturnIsNotNormal(o: Oracle, fuel: nat, item: Item, s: Source.Store)
    requires ExecItem(o, fuel, item, s).Normal?
    ensures !(item.Stm? && item.s.Return?)
  {
  }

  lemma {:induction false} SimItem(g: Graph, k: Ctx, fuel: nat, item: Item, s: State, c: Config) returns (d: Config)
    requires Valid(s) && !s.returned && AtEnd(s, c) && Extended(LowerItem(item, s).blocks, g)
    ensures Follows(g, k, fuel, ExecItem(k.o, fuel, item, c.s), s, LowerItem(item, s), c, d)
    decreases fuel, item, 0
  {
    match item
    case ConstDecl => d := c; Stays(g, k, c);
    case VarDecl(defs) => d := SimDefs(g, k, fuel, defs, s, c);
    case Stm(st) => d := SimStmt(g, k, fuel, st, s, c);
  }

  lemma {:induction false} SimDefs(g: Graph, k: Ctx, fuel: nat, defs: Defs, s: State, c: Config) returns (d: Config)
    requires Valid(s) && AtEnd(s, c) && Extended(LowerDefs(defs, s).blocks, g)
    ensures Follows(g, k, fuel, ExecDefs(k.o, defs, c.s), s, LowerDefs(defs, s), c, d)
    decreases defs
  {
    hide Reaches, Lasts, Extended, AppendTo, Grows;
    match defs
    case NoDefs => d := c; Stays(g, k, c);
    case Defs(VarDef(x, init), rest) =>
      var i := Alloc(Of(Local(x)));
      var s1 := Append(s, i);
      var s2 := if init.None? then s1
                else Append(LowerExp(init.value, s1).0, Inst.Store(LowerExp(init.value, s1).1, Of(Local(x))));
      GrowsSelf(s);
      GrowsAppend(s, s, i);
      GrowsMeans(s, s1);
      InitGrows(init, x, s1);
      GrowsMeans(s1, s2);
      DefsGrow(rest, s2);
      GrowsMeans(s2, LowerDefs(rest, s2));
      ExtendedThrough(s2.blocks, LowerDefs(rest, s2).blocks, g);
      ExtendedThrough(s1.blocks, s2.blocks, g);
      StepInst(g, k, s, i, c);
      var c1 := Execute(k, i, c);
      if init.None? {
        d := SimDefs(g, k, fuel, rest, s2, c1);
      } else {
        d := SimAssign(g, k, fuel, Local(x), init.value, s1, c1);
        var r := Exec(k.o, fuel, Assign(Local(x), init.value), c1.s);
        if r.Normal? {
          var c2 := d;
          d := SimDefs(g, k, fuel, rest, s2, c2);
          FollowsAfter(g, k, fuel, ExecDefs(k.o, rest, r.s), s, LowerDefs(defs, s), c1, c2, d);
        }
      }
      FollowsAfter(g, k, fuel, ExecDefs(k.o, defs, c.s), s, LowerDefs(defs, s), c, c1, d);
  }
}
