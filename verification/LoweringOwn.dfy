/**
 * Operands stay in their block exactly when logical operators come first: every step of lowering keeps all
 * blocks local if and only if the expression it lowers meets the rule, in live and in dead code.
 */
module LoweringOwn {
  import opened Words
  import opened Source
  import opened Koopa
  import opened Lowering
  import opened LoweringShape
  import opened LoweringLocal

  // ----- single instructions -----

  /** Every block uses its own values only. */
  ghost predicate Own(r: Rules, g: Graph)
  {
    forall b: nat :: b < |g| ==> UsesOwn(Tail(r.skip, g, b))
  }

  /** Allocs and calls are as they should be. */
  ghost predicate Proper(r: Rules, g: Graph)
  {
    forall b: nat, i: nat :: b < |g| && i < |Tail(r.skip, g, b)| ==> Decent(r, Tail(r.skip, g, b)[i])
  }

  /** From s to t all blocks stay local exactly if the condition holds, and allocs and calls stay as they should. */
  ghost predicate Keeps(r: Rules, ok: bool, s: State, t: State)
  {
    && Based(r, t) && (Own(r, t.blocks) <==> Own(r, s.blocks) && ok)
    && (Proper(r, s.blocks) ==> Proper(r, t.blocks))
  }

  lemma KeepsThrough(r: Rules, a: bool, b: bool, s: State, t: State, u: State)
    requires Keeps(r, a, s, t) && Keeps(r, b, t, u)
    ensures Keeps(r, a && b, s, u)
  {
  }

  lemma OwnMore(xs: seq<Inst>, i: Inst)
    ensures UsesOwn(xs + [i]) <==> UsesOwn(xs) && InstLocal(DefsOf(xs), i)
    ensures DefsOf(xs + [i]) == DefAfter(DefsOf(xs), i)
  {
    assert (xs + [i])[..|xs|] == xs;
  }

  lemma TailMore(skip: nat, g: Graph, b: nat, i: Inst)
    requires b < |g| && skip <= |g[0]|
    ensures Tail(skip, g[b := g[b] + [i]], b) == Tail(skip, g, b) + [i]
    ensures forall c: nat :: c < |g| && c != b ==> Tail(skip, g[b := g[b] + [i]], c) == Tail(skip, g, c)
  {
  }

  lemma OwnAppended(r: Rules, s: State, i: Inst)
    requires Based(r, s) && OpenAt(s)
    ensures var t := Append(s, i);
            Own(r, t.blocks) <==> Own(r, s.blocks) && InstLocal(DefsAt(r, s), i)
  {
    var g, h := s.blocks, Append(s, i).blocks;
    TailMore(r.skip, g, s.cur, i);
    OwnMore(Tail(r.skip, g, s.cur), i);
    hide UsesOwn, DefsOf, InstLocal;
    if Own(r, h) {
      forall b: nat | b < |g| ensures UsesOwn(Tail(r.skip, g, b)) {
        assert UsesOwn(Tail(r.skip, h, b)) && UsesOwn(Tail(r.skip, h, s.cur));
      }
    }
    if Own(r, g) && UsesOwn(Tail(r.skip, h, s.cur)) {
      forall b: nat | b < |h| ensures UsesOwn(Tail(r.skip, h, b)) {
        assert UsesOwn(Tail(r.skip, g, b)) && UsesOwn(Tail(r.skip, h, s.cur));
      }
    }
  }

  lemma ProperAppended(r: Rules, s: State, i: Inst)
    requires Based(r, s) && OpenAt(s) && Proper(r, s.blocks) && Decent(r, i)
    ensures Proper(r, Append(s, i).blocks)
  {
    var g, h := s.blocks, Append(s, i).blocks;
    TailMore(r.skip, g, s.cur, i);
    hide Decent;
    forall b: nat, k: nat | b < |h| && k < |Tail(r.skip, h, b)| ensures Decent(r, Tail(r.skip, h, b)[k]) {
      if b != s.cur || k < |Tail(r.skip, g, b)| {
        assert Decent(r, Tail(r.skip, g, b)[k]);
      }
    }
  }

  /** Appending keeps the blocks local exactly when the instruction is dropped or uses values of its block. */
  lemma OwnAppend(r: Rules, s: State, i: Inst)
    requires Based(r, s) && Decent(r, i)
    ensures Keeps(r, OpenAt(s) ==> InstLocal(DefsAt(r, s), i), s, Append(s, i))
  {
    if OpenAt(s) {
      OwnAppended(r, s, i);
      hide Own, Decent, Proper;
      if Proper(r, s.blocks) { ProperAppended(r, s, i); }
    }
  }

  lemma DefsAppend(r: Rules, s: State, i: Inst)
    requires Based(r, s)
    ensures var t := Append(s, i);
            && Based(r, t) && t.cur == s.cur && t.next == s.next
            && DefsAt(r, t) == (if OpenAt(s) then DefAfter(DefsAt(r, s), i) else DefsAt(r, s))
            && (!Terminator(i) ==> (OpenAt(t) <==> OpenAt(s)))
  {
    if OpenAt(s) {
      TailMore(r.skip, s.blocks, s.cur, i);
      OwnMore(Tail(r.skip, s.blocks, s.cur), i);
    }
  }

  lemma DefsEmit(r: Rules, s: State, i: Inst)
    requires Based(r, s)
    ensures var t := Emit(s, i);
            && Based(r, t) && t.cur == s.cur && t.next == s.next + 1
            && DefsAt(r, t) == (if OpenAt(s) then DefAfter(DefsAt(r, s), i) else DefsAt(r, s))
            && (!Terminator(i) ==> (OpenAt(t) <==> OpenAt(s)))
  {
    DefsAppend(r, NewId(s), i);
  }

  /** An instruction that takes the next id. */
  lemma OwnEmit(r: Rules, s: State, i: Inst)
    requires Based(r, s) && Decent(r, i)
    ensures Keeps(r, OpenAt(s) ==> InstLocal(DefsAt(r, s), i), s, Emit(s, i))
    ensures var t := Emit(s, i);
            && t.cur == s.cur && t.next == s.next + 1
            && DefsAt(r, t) == (if OpenAt(s) then DefAfter(DefsAt(r, s), i) else DefsAt(r, s))
            && (!Terminator(i) ==> (OpenAt(t) <==> OpenAt(s)))
  {
    OwnAppend(r, NewId(s), i);
    DefsEmit(r, s, i);
  }

  lemma OwnNew(r: Rules, s: State, n: nat)
    requires Based(r, s)
    ensures var t := NewBlocks(s, n); Keeps(r, true, s, t) && DefsAt(r, t) == DefsAt(r, s) && (OpenAt(t) <==> OpenAt(s))
  {
    var g, h := s.blocks, NewBlocks(s, n).blocks;
    assert forall b: nat :: b < |g| ==> Tail(r.skip, h, b) == Tail(r.skip, g, b);
    assert forall b: nat :: |g| <= b < |h| ==> Tail(r.skip, h, b) == [];
  }

  lemma KeepsSame(r: Rules, ok: bool, s: State, t: State, u: State)
    requires Keeps(r, ok, s, t) && u.blocks == t.blocks && u.cur < |u.blocks|
    ensures Keeps(r, ok, s, u)
  {
  }

  // ----- which values the cursor's block has -----

  /** What an expression, with or without logical operators, does at the cursor: it opens the block if it has
      some, and stays on it if it has none; new values have new ids. */
  predicate Follows(r: Rules, logic: bool, s: State, t: State)
  {
    && Based(r, t) && s.next <= t.next
    && (OpenAt(t) <==> OpenAt(s) || logic)
    && (!logic ==> t.cur == s.cur && DefsAt(r, s) <= DefsAt(r, t))
    && forall id :: id in DefsAt(r, t) ==> id >= s.next || (!logic && id in DefsAt(r, s))
  }

  lemma FollowsThrough(r: Rules, a: bool, b: bool, s: State, t: State, u: State)
    requires Follows(r, a, s, t) && Follows(r, b, t, u)
    ensures Follows(r, a || b, s, u)
  {
    hide Based, OpenAt, DefsAt;
  }

  lemma FollowsSelf(r: Rules, s: State)
    requires Based(r, s)
    ensures Follows(r, false, s, s)
  {
  }

  /** The operand of an expression: a constant, or a new value that the cursor's block has if it is open. */
  predicate OwnValue(r: Rules, e: Exp, s: State, t: State, op: Operand)
  {
    && !op.ArgRef? && (ConstantOperand(e) <==> op.Imm?) && (op.Res? ==> s.next <= op.id < t.next)
    && (OpenAt(t) ==> OperandIn(DefsAt(r, t), op))
  }

  predicate TakesId(i: Inst, id: nat) { (i.Load? || i.Binary? || (i.Call? && !i.f.isVoid)) && i.id == id }

  /** One more value after an expression's. */
  lemma FollowsEmit(r: Rules, logic: bool, s: State, t: State, i: Inst)
    requires Follows(r, logic, s, t) && TakesId(i, t.next)
    ensures var u := Emit(t, i);
            Follows(r, logic, s, u) && u.next == t.next + 1 && (OpenAt(u) ==> t.next in DefsAt(r, u))
  {
    DefsEmit(r, t, i);
    hide Based, OpenAt, DefsAt;
  }

  lemma {:induction false} ExpFollows(r: Rules, e: Exp, s: State)
    requires Based(r, s) && ExpTyped(r.fs, e)
    ensures var (t, op) := LowerExp(e, s); Follows(r, HasLogic(e), s, t) && OwnValue(r, e, s, t, op)
    decreases e, 1
  {
    hide Follows, DefsAt, OpenAt, AppendTo;
    FollowsSelf(r, s);
    match e
    case Num(_) =>
    case LVal(Constant(_)) =>
    case LVal(Variable(v)) => FollowsEmit(r, false, s, s, Load(s.next, Of(v)));
    case Call(f, args) => CallFollows(r, f, args, s);
    case Plus(e0) => ExpFollows(r, e0, s);
    case Neg(e0) => UnaryFollows(r, Sub, e0, s);
    case Not(e0) => UnaryFollows(r, BinOp.Eq, e0, s);
    case Binary(op, l, x) =>
      ExpFollows(r, l, s);
      var (s1, a) := LowerExp(l, s);
      FollowsMeans(r, HasLogic(l), s, s1);
      ExpFollows(r, x, s1);
      var (s2, b) := LowerExp(x, s1);
      FollowsThrough(r, HasLogic(l), HasLogic(x), s, s1, s2);
      FollowsMeans(r, HasLogic(e), s, s2);
      FollowsEmit(r, HasLogic(e), s, s2, Inst.Binary(s2.next, op, a, b));
    case Logic(_, _, _) => LogicFollows(r, e, s);
  }

  lemma FollowsMeans(r: Rules, logic: bool, s: State, t: State)
    requires Follows(r, logic, s, t)
    ensures Based(r, t) && s.next <= t.next && (OpenAt(t) <==> OpenAt(s) || logic)
  {
  }

  lemma {:induction false} UnaryFollows(r: Rules, op: BinOp, e0: Exp, s: State)
    requires Based(r, s) && ExpTyped(r.fs, e0)
    ensures var (s1, a) := LowerExp(e0, s);
            var t := Emit(s1, Inst.Binary(s1.next, op, Imm(0), a));
            && Follows(r, HasLogic(e0), s, t) && s.next <= s1.next < t.next
            && (OpenAt(t) ==> OperandIn(DefsAt(r, t), Res(s1.next)))
    decreases e0, 2
  {
    hide Follows, DefsAt, OpenAt, AppendTo;
    ExpFollows(r, e0, s);
    var (s1, a) := LowerExp(e0, s);
    FollowsMeans(r, HasLogic(e0), s, s1);
    FollowsEmit(r, HasLogic(e0), s, s1, Inst.Binary(s1.next, op, Imm(0), a));
  }

  lemma {:induction false} CallFollows(r: Rules, f: Callee, args: Exps, s: State)
    requires Based(r, s) && ArgsTyped(r.fs, args) && !f.isVoid
    ensures var (t, op) := LowerExp(Exp.Call(f, args), s);
            && Follows(r, ArgsHaveLogic(args), s, t) && op == Res(s.next) && s.next < t.next
            && (OpenAt(t) ==> OperandIn(DefsAt(r, t), op))
    decreases args, 2
  {
    hide AppendTo;
    ArgsFollow(r, args, NewId(s));
    var (s1, ops) := LowerArgs(args, NewId(s));
    assert DefsAt(r, NewId(s)) == DefsAt(r, s);
    DefsAppend(r, s1, Inst.Call(s.next, f, ops));
    hide Based, OpenAt, DefsAt;
  }

  lemma {:induction false} ArgsFollow(r: Rules, es: Exps, s: State)
    requires Based(r, s) && ArgsTyped(r.fs, es)
    ensures Follows(r, ArgsHaveLogic(es), s, LowerArgs(es, s).0)
    decreases es, 1
  {
    hide Follows, DefsAt, OpenAt;
    FollowsSelf(r, s);
    match es
    case NoExps =>
    case Exps(e, rest) =>
      ExpFollows(r, e, s);
      var s1 := LowerExp(e, s).0;
      FollowsMeans(r, HasLogic(e), s, s1);
      ArgsFollow(r, rest, s1);
      FollowsThrough(r, HasLogic(e), ArgsHaveLogic(rest), s, s1, LowerArgs(rest, s1).0);
  }

  lemma {:induction false} LogicFollows(r: Rules, e: Exp, s: State)
    requires Based(r, s) && e.Logic?
    ensures var (t, op) := LowerExp(e, s); Follows(r, true, s, t) && OwnValue(r, e, s, t, op)
    decreases e, 0
  {
    hide Grows, Extended, AppendTo;
    var s0, s1, s2, s3, s4 := LogicGrows(e, s);
    LogicBased(r, s, s0, s1, s2, s3, s4);
    OwnEmit(r, s4, Load(s4.next, Temp(s.next)));
  }

  lemma LogicBased(r: Rules, s: State, s0: State, s1: State, s2: State, s3: State, s4: State)
    requires Based(r, s) && Grows(s, s0) && Grows(s0, s1) && Grows(s2, s3) && Valid(s2) && Valid(s4)
    requires Extended(s1.blocks, s2.blocks) && Extended(s3.blocks, s4.blocks)
    ensures Based(r, s0) && Based(r, s1) && Based(r, s2) && Based(r, s3) && Based(r, s4)
  {
  }

  // ----- expressions -----

  /** An operand is still there after an expression, if that leaves the block open, exactly when the expression has
      no logical operator or the operand is a constant. */
  lemma StillThere(r: Rules, e: Exp, logic: bool, s: State, s1: State, t: State, op: Operand)
    requires OwnValue(r, e, s, s1, op) && Follows(r, logic, s1, t)
    ensures (OpenAt(t) ==> OperandIn(DefsAt(r, t), op)) <==> (logic ==> ConstantOperand(e))
  {
    hide Based, OpenAt, DefsAt;
  }

  /** Wherever an expression is lowered, all blocks are local afterwards if and only if they were and its logical
      operators come first. */
  lemma {:induction false} ExpOwn(r: Rules, e: Exp, s: State)
    requires Based(r, s) && ExpTyped(r.fs, e)
    ensures Keeps(r, LogicFirst(e), s, LowerExp(e, s).0)
    decreases e, 1
  {
    hide Keeps, DefsAt, OpenAt, AppendTo, Based, Follows;
    KeepsSelf(r, s);
    match e
    case Num(_) =>
    case LVal(Constant(_)) =>
    case LVal(Variable(v)) => OwnEmit(r, s, Load(s.next, Of(v)));
    case Call(f, args) => CallOwn(r, f, args, s);
    case Plus(e0) => ExpOwn(r, e0, s);
    case Neg(e0) => UnaryOwn(r, Sub, e0, s);
    case Not(e0) => UnaryOwn(r, BinOp.Eq, e0, s);
    case Binary(op, l, x) =>
      var (s1, a) := LowerExp(l, s);
      var (s2, b) := LowerExp(x, s1);
      ExpFollows(r, l, s);
      FollowsMeans(r, HasLogic(l), s, s1);
      ExpFollows(r, x, s1);
      FollowsMeans(r, HasLogic(x), s1, s2);
      ExpOwn(r, l, s);
      ExpOwn(r, x, s1);
      KeepsThrough(r, LogicFirst(l), LogicFirst(x), s, s1, s2);
      StillThere(r, l, HasLogic(x), s, s1, s2, a);
      OwnEmit(r, s2, Inst.Binary(s2.next, op, a, b));
      KeepsThrough(r, LogicFirst(l) && LogicFirst(x), HasLogic(x) ==> ConstantOperand(l), s, s2, LowerExp(e, s).0);
    case Logic(_, _, _) => LogicOwn(r, e, s);
  }

  lemma KeepsSelf(r: Rules, s: State)
    requires Based(r, s)
    ensures Keeps(r, true, s, s)
  {
  }

  /** An instruction that is local if it is not dropped. */
  lemma KeepsMore(r: Rules, ok: bool, s: State, t: State, i: Inst)
    requires Keeps(r, ok, s, t) && Decent(r, i) && (OpenAt(t) ==> InstLocal(DefsAt(r, t), i))
    ensures Keeps(r, ok, s, Append(t, i))
  {
    OwnAppend(r, t, i);
    hide Based, OpenAt, DefsAt, Own, Proper, Decent, InstLocal, AppendTo;
  }

  lemma {:induction false} UnaryOwn(r: Rules, op: BinOp, e0: Exp, s: State)
    requires Based(r, s) && ExpTyped(r.fs, e0)
    ensures var (s1, a) := LowerExp(e0, s);
            Keeps(r, LogicFirst(e0), s, Emit(s1, Inst.Binary(s1.next, op, Imm(0), a)))
    decreases e0, 2
  {
    hide Keeps, DefsAt, OpenAt, AppendTo, Based, Follows;
    var (s1, a) := LowerExp(e0, s);
    ExpFollows(r, e0, s);
    FollowsMeans(r, HasLogic(e0), s, s1);
    ExpOwn(r, e0, s);
    var i := Inst.Binary(s1.next, op, Imm(0), a);
    OwnEmit(r, s1, i);
    KeepsThrough(r, LogicFirst(e0), true, s, s1, Emit(s1, i));
  }

  /** A call of either kind. */
  lemma {:induction false} CallOwn(r: Rules, f: Callee, args: Exps, s: State)
    requires Based(r, s) && CalleeOk(r.fs, f) && ArgsTyped(r.fs, args)
    ensures Keeps(r, ArgsLogicFirst(args), s, LowerExp(Exp.Call(f, args), s).0)
    decreases args, 2
  {
    assert Based(r, NewId(s));
    hide Own, Proper, DefsAt, OpenAt, AppendTo, Based, Follows, CalleeOk;
    ArgsOwn(r, args, NewId(s));
    ArgsFollow(r, args, NewId(s));
    var (s1, ops) := LowerArgs(args, NewId(s));
    FollowsMeans(r, ArgsHaveLogic(args), NewId(s), s1);
    OwnAppend(r, s1, Inst.Call(s.next, f, ops));
  }

  ghost predicate AllIn(d: set<nat>, ops: seq<Operand>) { forall x :: x in ops ==> OperandIn(d, x) }

  lemma AllInHead(d: set<nat>, op: Operand, ops: seq<Operand>)
    ensures AllIn(d, [op] + ops) <==> OperandIn(d, op) && AllIn(d, ops)
  {
    assert forall x :: x in [op] + ops <==> x == op || x in ops;
  }

  /** All blocks are local after the arguments, and the arguments in the cursor's block if it is open, if and only
      if the blocks were local and the arguments' logical operators come first. */
  lemma {:induction false} ArgsOwn(r: Rules, es: Exps, s: State)
    requires Based(r, s) && ArgsTyped(r.fs, es)
    ensures var (t, ops) := LowerArgs(es, s);
            Own(r, t.blocks) && (OpenAt(t) ==> AllIn(DefsAt(r, t), ops)) <==> Own(r, s.blocks) && ArgsLogicFirst(es)
    ensures Proper(r, s.blocks) ==> Proper(r, LowerArgs(es, s).0.blocks)
    decreases es, 1
  {
    hide Own, Proper, DefsAt, OpenAt, Based, Follows, OperandIn;
    match es
    case NoExps =>
    case Exps(e, rest) =>
      var (s1, op) := LowerExp(e, s);
      var (t, ops) := LowerArgs(rest, s1);
      ExpFollows(r, e, s);
      FollowsMeans(r, HasLogic(e), s, s1);
      ArgsFollow(r, rest, s1);
      ExpOwn(r, e, s);
      ArgsOwn(r, rest, s1);
      StillThere(r, e, ArgsHaveLogic(rest), s, s1, t, op);
      AllInHead(DefsAt(r, t), op, ops);
      hide AllIn;
  }

  lemma LogicStartOwn(r: Rules, op: LogicOp, s: State)
    requires Based(r, s)
    ensures Keeps(r, true, s, LogicStart(op, s))
  {
    OwnNew(r, s, 2);
    var s1 := NewId(NewBlocks(s, 2)).(bbs := s.bbs + [|s.blocks|, |s.blocks| + 1]);
    KeepsSame(r, true, s, NewBlocks(s, 2), s1);
    hide Keeps, DefsAt, OpenAt, AppendTo;
    KeepsMore(r, true, s, s1, Alloc(Temp(s.next)));
    KeepsMore(r, true, s, Append(s1, Alloc(Temp(s.next))), Inst.Store(Imm(LogicInit(op)), Temp(s.next)));
  }

  lemma LogicTurnOwn(r: Rules, op: LogicOp, l: Operand, rhs: nat, s: State)
    requires Based(r, s) && (OpenAt(s) ==> OperandIn(DefsAt(r, s), l)) && Based(r, LogicTurn(op, l, rhs, s))
    ensures Keeps(r, true, s, LogicTurn(op, l, rhs, s))
  {
    var i := Inst.Binary(s.next, LogicTest(op), l, Imm(0));
    OwnEmit(r, s, i);
    hide Keeps, DefsAt, OpenAt, AppendTo;
    KeepsMore(r, true, s, Emit(s, i), Branch(Res(s.next), rhs, rhs + 1));
    KeepsSame(r, true, s, Append(Emit(s, i), Branch(Res(s.next), rhs, rhs + 1)), LogicTurn(op, l, rhs, s));
  }

  lemma LogicJoinOwn(r: Rules, x: Operand, rhs: nat, tmp: nat, s: State)
    requires Based(r, s) && (OpenAt(s) ==> OperandIn(DefsAt(r, s), x)) && Based(r, LogicJoin(x, rhs, tmp, s))
    ensures Keeps(r, true, s, LogicJoin(x, rhs, tmp, s))
  {
    var i, st := Inst.Binary(s.next, Ne, x, Imm(0)), Inst.Store(Res(s.next), Temp(tmp));
    OwnEmit(r, s, i);
    hide Keeps, DefsAt, OpenAt, AppendTo;
    KeepsMore(r, true, s, Emit(s, i), st);
    KeepsMore(r, true, s, Append(Emit(s, i), st), Jump(rhs + 1));
    KeepsSame(r, true, s, Append(Append(Emit(s, i), st), Jump(rhs + 1)), LogicJoin(x, rhs, tmp, s));
  }

  lemma {:induction false} LogicOwn(r: Rules, e: Exp, s: State)
    requires Based(r, s) && e.Logic? && ExpTyped(r.fs, e)
    ensures Keeps(r, LogicFirst(e), s, LowerExp(e, s).0)
    decreases e, 0
  {
    var s0, s1, s2, s3, s4 := LogicGrows(e, s);
    LogicBased(r, s, s0, s1, s2, s3, s4);
    hide Keeps, DefsAt, OpenAt, AppendTo, Based, Follows, Grows, Extended;
    LogicStartOwn(r, e.lop, s);
    ExpOwn(r, e.l, s0);
    ExpFollows(r, e.l, s0);
    LogicTurnOwn(r, e.lop, LowerExp(e.l, s0).1, |s.blocks|, s1);
    ExpOwn(r, e.r, s2);
    ExpFollows(r, e.r, s2);
    LogicJoinOwn(r, LowerExp(e.r, s2).1, |s.blocks|, s.next, s3);
    OwnEmit(r, s4, Load(s4.next, Temp(s.next)));
    LogicKeeps(r, LogicFirst(e.l), LogicFirst(e.r), s, s0, s1, s2, s3, s4, LowerExp(e, s).0);
  }

  lemma LogicKeeps(r: Rules, a: bool, b: bool, s: State, s0: State, s1: State, s2: State, s3: State, s4: State,
                   t: State)
    requires Keeps(r, true, s, s0) && Keeps(r, a, s0, s1) && Keeps(r, true, s1, s2)
    requires Keeps(r, b, s2, s3) && Keeps(r, true, s3, s4) && Keeps(r, true, s4, t)
    ensures Keeps(r, a && b, s, t)
  {
    hide Based, Own, Proper;
  }

  // ----- statements -----

  lemma BasedMeans(r: Rules, s: State)
    requires Based(r, s)
    ensures Valid(s)
  {
  }

  lemma BasedGrows(r: Rules, s: State, t: State)
    requires Based(r, s) && Grows(s, t)
    ensures Based(r, t)
  {
  }

  /** An expression and an instruction that uses its operand. */
  lemma ExpThen(r: Rules, e: Exp, s: State, i: Inst)
    requires Based(r, s) && ExpTyped(r.fs, e)
    requires var op := LowerExp(e, s).1;
             i == Inst.Return(Some(op)) || (i.Store? && i.value == op) || (i.Branch? && i.cond == op)
    ensures Keeps(r, LogicFirst(e), s, Append(LowerExp(e, s).0, i))
  {
    hide Keeps, DefsAt, OpenAt, AppendTo, Based, Follows;
    ExpOwn(r, e, s);
    ExpFollows(r, e, s);
    KeepsMore(r, LogicFirst(e), s, LowerExp(e, s).0, i);
  }

  /** Wherever a statement is lowered, all blocks are local afterwards if and only if they were and the logical
      operators of its expressions come first. */
  lemma {:induction false} StmtOwn(r: Rules, st: Stmt, s: State)
    requires Based(r, s) && StmtTyped(r.fs, r.params, st) && !s.returned
    ensures Keeps(r, StmtLogicFirst(st), s, LowerStmt(st, s))
    decreases st, 1
  {
    hide Keeps, DefsAt, OpenAt, AppendTo, Grows, Based;
    KeepsSelf(r, s);
    BasedMeans(r, s);
    StmtGrows(st, s);
    BasedGrows(r, s, LowerStmt(st, s));
    assert LowerStmt(st, s).cur < |LowerStmt(st, s).blocks|;
    match st
    case Empty =>
    case Assign(v, e) => ExpThen(r, e, s, Inst.Store(LowerExp(e, s).1, Of(v)));
    case Eval(e) => if ExpTyped(r.fs, e) { ExpOwn(r, e, s); } else { CallOwn(r, e.f, e.args, s); }
    case Block(items) =>
      ItemsOwn(r, items, s);
      KeepsSame(r, ItemsLogicFirst(items), s, LowerItems(items, s), LowerStmt(st, s));
    case Return(None) =>
      KeepsMore(r, true, s, s, Inst.Return(None));
      KeepsSame(r, true, s, Append(s, Inst.Return(None)), LowerStmt(st, s));
    case Return(Some(e)) =>
      var i := Inst.Return(Some(LowerExp(e, s).1));
      ExpThen(r, e, s, i);
      KeepsSame(r, LogicFirst(e), s, Append(LowerExp(e, s).0, i), LowerStmt(st, s));
    case If(_, _, _) => IfOwn(r, st, s);
    case While(_, _) => WhileOwn(r, st, s);
    case Break => LeaveOwn(r, s, s.end);
    case Continue => LeaveOwn(r, s, s.cond);
  }

  lemma LeaveOwn(r: Rules, s: State, target: nat)
    requires Based(r, s)
    ensures Keeps(r, true, s, Leave(s, target))
  {
    OwnNew(r, s, 1);
    var s1 := NewBlocks(s, 1).(bbs := s.bbs + [|s.blocks|]);
    KeepsSame(r, true, s, NewBlocks(s, 1), s1);
    KeepsMore(r, true, s, s1, Jump(target));
    KeepsSame(r, true, s, Append(s1, Jump(target)), Leave(s, target));
  }

  /** Three blocks are made and the cursor's closed on the way to the first. */
  lemma ThreeOwn(r: Rules, ok: bool, s: State, t: State, i: Inst)
    requires Keeps(r, ok, s, t) && Decent(r, i) && (OpenAt(t) ==> InstLocal(DefsAt(r, t), i))
    ensures Keeps(r, ok, s, Enter(Append(NewBlocks(t, 3), i), |t.blocks|))
  {
    OwnNew(r, t, 3);
    var u := NewBlocks(t, 3);
    OwnAppend(r, u, i);
    assert |Append(u, i).blocks| == |u.blocks|;
    KeepsSame(r, OpenAt(u) ==> InstLocal(DefsAt(r, u), i), u, Append(u, i), Enter(Append(u, i), |t.blocks|));
    hide Based, OpenAt, DefsAt, Own, Proper, Decent, InstLocal, AppendTo;
  }

  /** A jump, and the cursor to another block. */
  lemma JumpOwn(r: Rules, ok: bool, s: State, t: State, t1: State, target: nat, u: State)
    requires Keeps(r, ok, s, t) && t1.blocks == t.blocks && t1.cur == t.cur
    requires u.blocks == Append(t1, Jump(target)).blocks && u.cur < |u.blocks|
    ensures Keeps(r, ok, s, u)
  {
    KeepsSame(r, ok, s, t, t1);
    KeepsMore(r, ok, s, t1, Jump(target));
    KeepsSame(r, ok, s, Append(t1, Jump(target)), u);
  }

  lemma {:induction false} IfOwn(r: Rules, st: Stmt, s: State)
    requires Based(r, s) && st.If? && StmtTyped(r.fs, r.params, st) && !s.returned
    ensures Keeps(r, StmtLogicFirst(st), s, LowerStmt(st, s))
    decreases st, 0
  {
    hide Keeps, DefsAt, OpenAt, AppendTo, Grows, Extended, Based, Follows, IfStart, IfElse, LowerElse;
    BasedMeans(r, s);
    var If(c, thn, els) := st;
    ThenOwn(r, c, thn, s);
    var (s1, op) := LowerExp(c, s);
    var s4 := IfElse(|s1.blocks|, LowerStmt(thn, IfStart(op, s1)));
    ThenGrows(c, thn, s);
    ExpGrows(c, s);
    GrowsMeans(s, s1);
    GrowsMeans(s1, s4);
    ElseOwn(r, els, LogicFirst(c) && StmtLogicFirst(thn), |s1.blocks|, s, s1, s4);
  }

  lemma {:induction false} ElseOwn(r: Rules, els: Option<Stmt>, ok: bool, t: nat, s: State, s1: State, s4: State)
    requires Keeps(r, ok, s, s4) && !s4.returned && (els.Some? ==> StmtTyped(r.fs, r.params, els.value))
    requires Valid(s1) && Grows(s1, s4) && |s1.blocks| <= t && t + 2 < |s4.blocks| && s4.cur == t + 1
    ensures Keeps(r, ok && (els.Some? ==> StmtLogicFirst(els.value)), s, LowerElse(els, t, s4))
    decreases els, 2
  {
    KeepsMeans(r, ok, s, s4);
    hide Keeps, AppendTo, Grows, Extended, Based, LowerElse;
    ElseGrows(s1, els, t, s4);
    var s5, s6 := ElseBody(els, s4), LowerElse(els, t, s4);
    if els.Some? {
      StmtOwn(r, els.value, s4);
      KeepsThrough(r, ok, StmtLogicFirst(els.value), s, s4, LowerStmt(els.value, s4));
      JumpOwn(r, ok && StmtLogicFirst(els.value), s, LowerStmt(els.value, s4), s5, t + 2, s6);
    } else {
      JumpOwn(r, ok, s, s4, s5, t + 2, s6);
    }
  }

  lemma KeepsMeans(r: Rules, ok: bool, s: State, t: State)
    requires Keeps(r, ok, s, t)
    ensures Based(r, t)
  {
  }

  /** Up to where the first part of an `if` starts. */
  lemma IfStartOwn(r: Rules, c: Exp, s: State)
    requires Based(r, s) && ExpTyped(r.fs, c) && !s.returned
    ensures var (s1, op) := LowerExp(c, s);
            var s2 := IfStart(op, s1);
            Keeps(r, LogicFirst(c), s, s2) && Based(r, s2) && !s2.returned
  {
    hide Keeps, DefsAt, OpenAt, AppendTo, Grows, Based, Follows, NewBlocks, LowerExp, LogicFirst, HasLogic, ExpTyped;
    BasedMeans(r, s);
    var (s1, op) := LowerExp(c, s);
    var t := |s1.blocks|;
    ExpOwn(r, c, s);
    ExpFollows(r, c, s);
    ExpGrows(c, s);
    GrowsMeans(s, s1);
    ThreeOwn(r, LogicFirst(c), s, s1, Branch(op, t, t + 1));
    KeepsMeans(r, LogicFirst(c), s, IfStart(op, s1));
    IfStartGrows(op, s1);
  }

  /** The first part of an `if`, up to where the `else` part starts. */
  lemma {:induction false} ThenOwn(r: Rules, c: Exp, thn: Stmt, s: State)
    requires Based(r, s) && ExpTyped(r.fs, c) && StmtTyped(r.fs, r.params, thn) && !s.returned
    ensures var (s1, op) := LowerExp(c, s);
            Keeps(r, LogicFirst(c) && StmtLogicFirst(thn), s, IfElse(|s1.blocks|, LowerStmt(thn, IfStart(op, s1))))
    decreases thn, 2
  {
    hide Keeps, AppendTo, Grows, Extended, Based, IfElse, IfStart, LowerExp, LowerStmt, LogicFirst, StmtLogicFirst,
         StmtTyped;
    BasedMeans(r, s);
    var (s1, op) := LowerExp(c, s);
    var t := |s1.blocks|;
    var s2 := IfStart(op, s1);
    var s3 := LowerStmt(thn, s2);
    IfStartOwn(r, c, s);
    StmtOwn(r, thn, s2);
    KeepsThrough(r, LogicFirst(c), StmtLogicFirst(thn), s, s2, s3);
    ThenGrows(c, thn, s);
    ExpGrows(c, s);
    GrowsMeans(s, s1);
    GrowsMeans(s1, IfElse(t, s3));
    JumpOwn(r, LogicFirst(c) && StmtLogicFirst(thn), s, s3, s3.(returned := false), t + 2, IfElse(t, s3));
  }

  lemma {:induction false} WhileOwn(r: Rules, st: Stmt, s: State)
    requires Based(r, s) && st.While? && StmtTyped(r.fs, r.params, st) && !s.returned
    ensures Keeps(r, StmtLogicFirst(st), s, LowerStmt(st, s))
    decreases st, 0
  {
    hide Keeps, DefsAt, OpenAt, AppendTo, Grows, Extended, Based, Follows;
    BasedMeans(r, s);
    KeepsSelf(r, s);
    var While(c, body) := st;
    var b := |s.blocks|;
    ThreeOwn(r, true, s, s, Jump(b));
    var s0 := WhileStart(s);
    KeepsMeans(r, true, s, s0);
    WhileStartGrows(s);
    var (s1, op) := LowerExp(c, s0);
    var s2 := WhileBody(b, op, s1);
    ExpThen(r, c, s0, Branch(op, b + 1, b + 2));
    ExpGrows(c, s0);
    GrowsMeans(s0, s1);
    AppendSame(s1, Branch(op, b + 1, b + 2));
    KeepsSame(r, LogicFirst(c), s0, Append(s1, Branch(op, b + 1, b + 2)), s2);
    KeepsMeans(r, LogicFirst(c), s0, s2);
    StmtOwn(r, body, s2);
    StmtGrows(body, s2);
    var s3 := LowerStmt(body, s2);
    GrowsMeans(s2, s3);
    AppendSame(s3.(returned := false, cond := s.cond, end := s.end), Jump(b));
    KeepsThrough(r, true, LogicFirst(c), s, s0, s2);
    KeepsThrough(r, LogicFirst(c), StmtLogicFirst(body), s, s2, s3);
    JumpOwn(r, LogicFirst(c) && StmtLogicFirst(body), s, s3, s3.(returned := false, cond := s.cond, end := s.end), b,
            WhileEnd(s, s3));
  }

  lemma AppendSame(s: State, i: Inst)
    ensures |Append(s, i).blocks| == |s.blocks| && SameContext(s, Append(s, i)) && Append(s, i).next == s.next
  {
  }

  lemma {:induction false} ItemsOwn(r: Rules, items: Items, s: State)
    requires Based(r, s) && ItemsTyped(r.fs, r.params, items) && !s.returned
    ensures Keeps(r, ItemsLogicFirst(items), s, LowerItems(items, s))
    decreases items, 1
  {
    hide Keeps, Based, Grows;
    KeepsSelf(r, s);
    BasedMeans(r, s);
    match items
    case NoItems =>
    case Items(item, rest) =>
      var s1 := LowerItem(item, s);
      ItemGrows(item, s);
      match item {
        case ConstDecl => ItemsOwn(r, rest, s);
        case VarDecl(defs) =>
          DefsOwn(r, defs, s);
          KeepsMeans(r, DefsLogicFirst(defs), s, s1);
          ItemsOwn(r, rest, s1);
          KeepsThrough(r, DefsLogicFirst(defs), ItemsLogicFirst(rest), s, s1, LowerItems(rest, s1));
        case Stm(st) =>
          StmtOwn(r, st, s);
          KeepsMeans(r, StmtLogicFirst(st), s, s1);
          if !st.Return? {
            ItemsOwn(r, rest, s1);
            KeepsThrough(r, StmtLogicFirst(st), ItemsLogicFirst(rest), s, s1, LowerItems(rest, s1));
          }
      }
  }

  lemma {:induction false} DefsOwn(r: Rules, defs: Defs, s: State)
    requires Based(r, s) && DefsTyped(r.fs, r.params, defs)
    ensures Keeps(r, DefsLogicFirst(defs), s, LowerDefs(defs, s))
    decreases defs, 1
  {
    hide Keeps, Based, AppendTo, OpenAt, DefsAt;
    KeepsSelf(r, s);
    match defs
    case NoDefs =>
    case Defs(VarDef(x, init), rest) =>
      var slot := Of(Var.Local(x));
      var s1 := Append(s, Alloc(slot));
      KeepsMore(r, true, s, s, Alloc(slot));
      KeepsMeans(r, true, s, s1);
      if init.None? {
        DefsOwn(r, rest, s1);
        KeepsThrough(r, true, DefsLogicFirst(rest), s, s1, LowerDefs(rest, s1));
      } else {
        var (s2, op) := LowerExp(init.value, s1);
        var s3 := Append(s2, Inst.Store(op, slot));
        ExpThen(r, init.value, s1, Inst.Store(op, slot));
        KeepsMeans(r, LogicFirst(init.value), s1, s3);
        KeepsThrough(r, true, LogicFirst(init.value), s, s1, s3);
        DefsOwn(r, rest, s3);
        KeepsThrough(r, LogicFirst(init.value), DefsLogicFirst(rest), s, s3, LowerDefs(rest, s3));
      }
  }
}
