/**
 * How lowering grows a function: instructions are only ever added, and only to the block under the
 * cursor or to blocks built later; a block the cursor leaves ends in a terminator.
 */
module LoweringShape {
  import opened Words
  import opened Source
  import opened Koopa
  import opened Lowering

  predicate Valid(s: State) { s.cur < |s.blocks| }

  /** Every block of a is in b, possibly with more instructions at its end. */
  ghost predicate Extended(a: Graph, b: Graph)
  {
    |a| <= |b| && forall i :: 0 <= i < |a| ==> a[i] <= b[i]
  }

  ghost predicate Grows(s: State, t: State)
  {
    && Valid(t)
    && s.next <= t.next && Extended(s.blocks, t.blocks) && s.bbs <= t.bbs
    && (forall b :: 0 <= b < |s.blocks| && (b != s.cur || Terminated(s.blocks[b])) ==> t.blocks[b] == s.blocks[b])
    && (t.cur == s.cur || (t.cur >= |s.blocks| && s.cur < |s.blocks| && Terminated(t.blocks[s.cur])))
  }

  /** The loop context and the flag: what expressions never touch. */
  predicate SameContext(s: State, t: State)
  {
    t.cond == s.cond && t.end == s.end && t.returned == s.returned
  }

  lemma GrowsThrough(s: State, t: State, u: State)
    requires Valid(s) && Grows(s, t) && Grows(t, u)
    ensures Grows(s, u)
  {
  }

  lemma ExtendedThrough(a: Graph, b: Graph, c: Graph)
    requires Extended(a, b) && Extended(b, c)
    ensures Extended(a, c)
  {
  }

  lemma GrowsMeans(s: State, t: State)
    requires Valid(s) && Grows(s, t)
    ensures Valid(t) && Extended(s.blocks, t.blocks)
    ensures s.next <= t.next && |s.blocks| <= |t.blocks|
    ensures t.cur == s.cur || t.cur >= |s.blocks|
    ensures forall b :: 0 <= b < |s.blocks| && b != s.cur ==> t.blocks[b] == s.blocks[b]
  {
  }

  lemma GrowsContext(base: State, s: State, cond: nat, end: nat, returned: bool)
    requires Grows(base, s)
    ensures Grows(base, s.(returned := returned, cond := cond, end := end))
  {
  }

  lemma GrowsSelf(s: State)
    requires Valid(s)
    ensures Grows(s, s)
  {
  }

  // ----- the elementary moves, seen from any earlier state -----

  /** What appending leaves alone. */
  ghost predicate OnlyBlock(s: State, b: nat, t: State)
  {
    && t.cur == s.cur && t.bbs == s.bbs && SameContext(s, t) && |t.blocks| == |s.blocks|
    && Extended(s.blocks, t.blocks)
    && forall c :: 0 <= c < |s.blocks| && c != b ==> t.blocks[c] == s.blocks[c]
  }

  lemma GrowsAppendTo(base: State, s: State, b: nat, i: Inst)
    requires Valid(base) && Grows(base, s) && b < |s.blocks| && (b == s.cur || b >= |base.blocks|)
    ensures var t := AppendTo(s, b, i);
            && Grows(base, t) && OnlyBlock(s, b, t) && t.next == s.next
            && (Terminator(i) ==> Terminated(t.blocks[b]))
  {
  }

  lemma GrowsEnter(base: State, s: State, b: nat)
    requires Valid(base) && Grows(base, s) && |base.blocks| <= b < |s.blocks|
    requires Terminated(s.blocks[s.cur])
    ensures Grows(base, Enter(s, b)) && Grows(base, s.(cur := b))
  {
  }

  lemma GrowsEmit(base: State, s: State, i: Inst)
    requires Valid(base) && Grows(base, s)
    ensures var t := Emit(s, i);
            Grows(base, t) && OnlyBlock(s, s.cur, t) && t.next == s.next + 1 && Valid(s)
  {
  }

  lemma LogicStartGrows(op: LogicOp, s: State)
    requires Valid(s)
    ensures var t := LogicStart(op, s);
            && Grows(s, t) && t.next == s.next + 1 && t.cur == s.cur && SameContext(s, t) && Valid(t)
            && |t.blocks| == |s.blocks| + 2
            && t.blocks[|s.blocks|] == [] && t.blocks[|s.blocks| + 1] == []
  {
  }

  /** From a state reached after the block `rhs` was made. */
  lemma LogicTurnGrows(base: State, op: LogicOp, l: Operand, rhs: nat, s: State)
    requires Valid(base) && Grows(base, s) && |base.blocks| <= rhs < |s.blocks|
    ensures var t := LogicTurn(op, l, rhs, s);
            && Grows(base, t) && t.cur == rhs && SameContext(s, t) && s.next < t.next && Valid(t)
            && |t.blocks| == |s.blocks| && Extended(s.blocks, t.blocks)
            && (forall b :: 0 <= b < |s.blocks| && b != s.cur ==> t.blocks[b] == s.blocks[b])
  {
    hide Grows, Extended, AppendTo;
    var s1 := Emit(s, Inst.Binary(s.next, LogicTest(op), l, Imm(0)));
    GrowsEmit(base, s, Inst.Binary(s.next, LogicTest(op), l, Imm(0)));
    GrowsAppendTo(base, s1, s1.cur, Branch(Res(s.next), rhs, rhs + 1));
    GrowsEnter(base, Append(s1, Branch(Res(s.next), rhs, rhs + 1)), rhs);
    ExtendedThrough(s.blocks, s1.blocks, LogicTurn(op, l, rhs, s).blocks);
  }

  lemma LogicJoinGrows(base: State, r: Operand, rhs: nat, tmp: nat, s: State)
    requires Valid(base) && Grows(base, s) && |base.blocks| <= rhs && rhs + 1 < |s.blocks|
    ensures var t := LogicJoin(r, rhs, tmp, s);
            && Grows(base, t) && t.cur == rhs + 1 && SameContext(s, t) && s.next < t.next && Valid(t)
            && |t.blocks| == |s.blocks| && Extended(s.blocks, t.blocks)
            && (forall b :: 0 <= b < |s.blocks| && b != s.cur ==> t.blocks[b] == s.blocks[b])
  {
    hide Grows, Extended, AppendTo;
    var test := Inst.Binary(s.next, Ne, r, Imm(0));
    var s1 := Emit(s, test);
    var s2 := Append(s1, Inst.Store(Res(s.next), Temp(tmp)));
    GrowsEmit(base, s, test);
    GrowsAppendTo(base, s1, s1.cur, Inst.Store(Res(s.next), Temp(tmp)));
    GrowsAppendTo(base, s2, s2.cur, Jump(rhs + 1));
    GrowsEnter(base, Append(s2, Jump(rhs + 1)), rhs + 1);
    ExtendedThrough(s.blocks, s1.blocks, s2.blocks);
    ExtendedThrough(s.blocks, s2.blocks, LogicJoin(r, rhs, tmp, s).blocks);
  }

  // ----- expressions -----

  lemma {:induction false} ExpGrows(e: Exp, s: State)
    requires Valid(s)
    ensures Grows(s, LowerExp(e, s).0) && SameContext(s, LowerExp(e, s).0)
    decreases e, 1
  {
    GrowsSelf(s);
    hide Grows, Extended, AppendTo;
    match e
    case Num(_) =>
    case LVal(Constant(_)) =>
    case LVal(Variable(v)) => GrowsEmit(s, s, Load(s.next, Of(v)));
    case Call(f, args) => CallGrows(e, s);
    case Plus(e0) => ExpGrows(e0, s);
    case Neg(e0) =>
      var (s1, r) := LowerExp(e0, s);
      ExpGrows(e0, s);
      GrowsEmit(s, s1, Inst.Binary(s1.next, Sub, Imm(0), r));
    case Not(e0) =>
      var (s1, r) := LowerExp(e0, s);
      ExpGrows(e0, s);
      GrowsEmit(s, s1, Inst.Binary(s1.next, BinOp.Eq, Imm(0), r));
    case Binary(op, l, r) => BinaryGrows(e, s);
    case Logic(_, _, _) => var _, _, _, _, _ := LogicGrows(e, s);
  }

  lemma {:induction false} CallGrows(e: Exp, s: State)
    requires Valid(s) && e.Call?
    ensures Grows(s, LowerExp(e, s).0) && SameContext(s, LowerExp(e, s).0)
    decreases e, 0
  {
    var (s1, ops) := LowerArgs(e.args, NewId(s));
    ArgsGrow(e.args, NewId(s));
    assert Grows(s, s1);
    hide Grows;
    GrowsAppendTo(s, s1, s1.cur, Inst.Call(s.next, e.f, ops));
  }

  lemma {:induction false} BinaryGrows(e: Exp, s: State)
    requires Valid(s) && e.Binary?
    ensures Grows(s, LowerExp(e, s).0) && SameContext(s, LowerExp(e, s).0)
    decreases e, 0
  {
    hide Extended, AppendTo;
    var (s1, a) := LowerExp(e.l, s);
    var (s2, b) := LowerExp(e.r, s1);
    ExpGrows(e.l, s);
    ExpGrows(e.r, s1);
    GrowsThrough(s, s1, s2);
    GrowsEmit(s, s2, Inst.Binary(s2.next, e.op, a, b));
  }

  /** The five states a logical operator passes through, the last before its final load. */
  ghost predicate LogicSteps(e: Exp, s: State, s0: State, s1: State, s2: State, s3: State, s4: State)
    requires e.Logic?
  {
    var rhs := |s.blocks|;
    && s0 == LogicStart(e.lop, s)
    && s1 == LowerExp(e.l, s0).0
    && s2 == LogicTurn(e.lop, LowerExp(e.l, s0).1, rhs, s1)
    && s3 == LowerExp(e.r, s2).0
    && s4 == LogicJoin(LowerExp(e.r, s2).1, rhs, s.next, s3)
  }

  lemma {:induction false} LogicGrows(e: Exp, s: State)
    returns (s0: State, s1: State, s2: State, s3: State, s4: State)
    requires Valid(s) && e.Logic?
    ensures Grows(s, LowerExp(e, s).0) && SameContext(s, LowerExp(e, s).0)
    ensures LogicSteps(e, s, s0, s1, s2, s3, s4)
    ensures Grows(s, s0) && Grows(s0, s1) && Grows(s2, s3)
    ensures Extended(s0.blocks, s1.blocks) && Extended(s1.blocks, s2.blocks) && Extended(s2.blocks, s3.blocks)
    ensures Extended(s3.blocks, s4.blocks) && Extended(s4.blocks, LowerExp(e, s).0.blocks)
    ensures s2.cur == |s.blocks| && s4.cur == |s.blocks| + 1
    ensures Valid(s0) && Valid(s1) && Valid(s2) && Valid(s3) && Valid(s4)
    ensures s.next < s0.next <= s1.next < s2.next <= s3.next < s4.next
    ensures |s.blocks| + 1 < |s2.blocks| && |s.blocks| + 1 < |s4.blocks|
    ensures s2.blocks[|s.blocks|] == s2.blocks[|s.blocks| + 1] == s4.blocks[|s.blocks| + 1] == []
    decreases e, 0
  {
    hide Grows, Extended, AppendTo;
    var Logic(op, l, r) := e;
    var rhs := |s.blocks|;
    s0 := LogicStart(op, s);
    s1 := LowerExp(l, s0).0;
    s2 := LogicTurn(op, LowerExp(l, s0).1, rhs, s1);
    s3 := LowerExp(r, s2).0;
    s4 := LogicJoin(LowerExp(r, s2).1, rhs, s.next, s3);
    LogicStartGrows(op, s);
    ExpGrows(l, s0);
    GrowsMeans(s0, s1);
    GrowsThrough(s, s0, s1);
    LogicTurnGrows(s, op, LowerExp(l, s0).1, rhs, s1);
    ExpGrows(r, s2);
    GrowsMeans(s2, s3);
    GrowsThrough(s, s2, s3);
    LogicJoinGrows(s, LowerExp(r, s2).1, rhs, s.next, s3);
    GrowsEmit(s, s4, Load(s4.next, Temp(s.next)));
  }

  lemma {:induction false} ArgsGrow(es: Exps, s: State)
    requires Valid(s)
    ensures Grows(s, LowerArgs(es, s).0) && SameContext(s, LowerArgs(es, s).0)
  {
    match es
    case NoExps =>
    case Exps(e, rest) =>
      var s1 := LowerExp(e, s).0;
      ExpGrows(e, s);
      ArgsGrow(rest, s1);
      GrowsThrough(s, s1, LowerArgs(rest, s1).0);
  }

  // ----- statements -----

  /** Appending a terminator and moving to a block made after `base`. */
  lemma GrowsGoTo(base: State, s: State, i: Inst, b: nat)
    requires Valid(base) && Grows(base, s) && |base.blocks| <= b < |s.blocks| && Terminator(i)
    ensures var t := Enter(Append(s, i), b);
            && Grows(base, t) && Valid(t) && OnlyBlock(s, s.cur, t.(cur := s.cur, bbs := s.bbs))
            && Terminated(t.blocks[s.cur])
    ensures Grows(base, Append(s, i).(cur := b))
  {
    GrowsAppendTo(base, s, s.cur, i);
    GrowsEnter(base, Append(s, i), b);
  }

  lemma IfStartGrows(op: Operand, s: State)
    requires Valid(s)
    ensures var t := IfStart(op, s);
            && Grows(s, t) && t.cur == |s.blocks| && |t.blocks| == |s.blocks| + 3 && SameContext(s, t) && Valid(t)
            && (forall b :: |s.blocks| <= b < |t.blocks| ==> t.blocks[b] == [])
  {
    var t := |s.blocks|;
    assert Grows(s, NewBlocks(s, 3));
    GrowsGoTo(s, NewBlocks(s, 3), Branch(op, t, t + 1), t);
  }

  /** Closing the `then` block a second time changes nothing: the cursor's block is closed, and so is
      the `then` block if the cursor has left it. */
  lemma IfElseGrows(base: State, start: State, s: State)
    requires Valid(base) && Grows(base, s)
    requires Valid(start) && Grows(start, s) && start.cur >= |base.blocks| && start.cur + 2 < |s.blocks|
    ensures var t := start.cur;
            && IfElse(t, s) == Enter(Append(s.(returned := false), Jump(t + 2)), t + 1)
            && Grows(base, IfElse(t, s)) && |IfElse(t, s).blocks| == |s.blocks|
            && SameContext(s.(returned := false), IfElse(t, s)) && Extended(s.blocks, IfElse(t, s).blocks)
            && forall b :: 0 <= b < |s.blocks| && b != s.cur ==> IfElse(t, s).blocks[b] == s.blocks[b]
  {
    var t := start.cur;
    var s1 := s.(returned := false);
    GrowsGoTo(base, s1, Jump(t + 2), t + 1);
    assert Terminated(Append(s1, Jump(t + 2)).blocks[t]);
  }

  lemma WhileStartGrows(s: State)
    requires Valid(s)
    ensures var t := WhileStart(s);
            && Grows(s, t) && t.cur == |s.blocks| && |t.blocks| == |s.blocks| + 3 && SameContext(s, t) && Valid(t)
            && (forall b :: |s.blocks| <= b < |t.blocks| ==> t.blocks[b] == [])
  {
    assert Grows(s, NewBlocks(s, 3));
    GrowsGoTo(s, NewBlocks(s, 3), Jump(|s.blocks|), |s.blocks|);
  }

  lemma LeaveGrows(s: State, target: nat)
    requires Valid(s)
    ensures var t := Leave(s, target);
            Grows(s, t) && t.cur == |s.blocks| && SameContext(s, t) && t.blocks[t.cur] == []
  {
    var s1 := NewBlocks(s, 1).(bbs := s.bbs + [|s.blocks|]);
    assert Grows(s, s1);
    GrowsGoTo(s, s1, Jump(target), |s.blocks|);
  }

  /** A statement leaves the loop targets as they were, and sets `m_returned` only if it is itself a
      `return`. */
  predicate AfterStmt(st: Stmt, s: State, t: State)
  {
    && t.cond == s.cond && t.end == s.end
    && (t.returned == (st.Return? || (s.returned && !st.Block? && !st.If? && !st.While?)))
  }

  lemma {:induction false} StmtGrows(st: Stmt, s: State)
    requires Valid(s)
    ensures Grows(s, LowerStmt(st, s)) && AfterStmt(st, s, LowerStmt(st, s))
    decreases st, 1
  {
    GrowsSelf(s);
    hide Grows, Extended, AppendTo;
    match st
    case Empty =>
    case Assign(v, e) =>
      ExpGrows(e, s);
      GrowsAppend(s, LowerExp(e, s).0, Inst.Store(LowerExp(e, s).1, Of(v)));
    case Eval(e) => ExpGrows(e, s);
    case Block(items) => BlockGrows(st, s);
    case Return(None) => ReturnGrows(s, s, None);
    case Return(Some(e)) =>
      ExpGrows(e, s);
      ReturnGrows(s, LowerExp(e, s).0, Some(LowerExp(e, s).1));
    case If(_, _, _) => IfGrows(st, s);
    case While(_, _) => WhileGrows(st, s);
    case Break => LeaveGrows(s, s.end);
    case Continue => LeaveGrows(s, s.cond);
  }

  lemma GrowsAppend(base: State, s: State, i: Inst)
    requires Valid(base) && Grows(base, s)
    ensures Grows(base, Append(s, i)) && SameContext(s, Append(s, i))
  {
    GrowsAppendTo(base, s, s.cur, i);
  }

  lemma ReturnGrows(base: State, s: State, op: Option<Operand>)
    requires Valid(base) && Grows(base, s) && SameContext(base, s)
    ensures var t := Append(s, Inst.Return(op)).(returned := true);
            Grows(base, t) && t.cond == base.cond && t.end == base.end
  {
    GrowsAppendTo(base, s, s.cur, Inst.Return(op));
  }

  lemma {:induction false} BlockGrows(st: Stmt, s: State)
    requires Valid(s) && st.Block?
    ensures Grows(s, LowerStmt(st, s)) && AfterStmt(st, s, LowerStmt(st, s))
    decreases st, 0
  {
    ItemsGrow(st.items, s);
  }

  lemma {:induction false} IfGrows(st: Stmt, s: State)
    requires Valid(s) && st.If?
    ensures Grows(s, LowerStmt(st, s)) && AfterStmt(st, s, LowerStmt(st, s))
    decreases st, 0
  {
    hide Grows, Extended, AppendTo, IfStart, IfElse, LowerElse;
    var (s1, op) := LowerExp(st.cond, s);
    ExpGrows(st.cond, s);
    GrowsMeans(s, s1);
    ThenGrows(st.cond, st.thn, s);
    ElseGrows(s, st.els, |s1.blocks|, IfElse(|s1.blocks|, LowerStmt(st.thn, IfStart(op, s1))));
  }

  lemma {:induction false} ElseGrows(base: State, els: Option<Stmt>, t: nat, s: State)
    requires Valid(base) && Grows(base, s) && |base.blocks| <= t && t + 2 < |s.blocks|
    requires s.cur == t + 1 && !s.returned
    ensures var u := LowerElse(els, t, s);
            && Grows(base, u) && u.cond == s.cond && u.end == s.end && !u.returned && Valid(u)
            && u.cur == t + 2 && u.blocks[t + 2] == s.blocks[t + 2]
            && Extended(s.blocks, u.blocks)
            && u == Enter(Append(ElseBody(els, s), Jump(t + 2)), t + 2)
            && Extended(s.blocks, ElseBody(els, s).blocks) && Valid(ElseBody(els, s))
    decreases els, 2
  {
    hide Grows, Extended, AppendTo;
    var s1 := ElseBody(els, s);
    if els.Some? {
      StmtGrows(els.value, s);
      GrowsMeans(s, LowerStmt(els.value, s));
      GrowsContext(s, LowerStmt(els.value, s), s.cond, s.end, false);
      ElseCloses(s, s1, t);
      GrowsThrough(base, s, s1);
    } else {
      GrowsSelf(s);
      GrowsMeans(s, s);
      ElseCloses(s, s1, t);
    }
    GrowsGoTo(base, s1, Jump(t + 2), t + 2);
    ExtendedThrough(s.blocks, s1.blocks, LowerElse(els, t, s).blocks);
  }

  /** The state at the end of the `else` part, present or not. */
  function ElseBody(els: Option<Stmt>, s: State): State
  {
    if els.None? then s else LowerStmt(els.value, s).(returned := false)
  }

  /** The `else` block is closed by the jump out of the `else` part, or was closed when the cursor left it. */
  lemma ElseCloses(s: State, s1: State, t: nat)
    requires Valid(s) && s.cur == t + 1 && Grows(s, s1)
    ensures IfEnd(t, Append(s1, Jump(t + 2))) == Enter(Append(s1, Jump(t + 2)), t + 2)
    ensures s1 == s ==> IfEnd(t, s) == Enter(Append(s1, Jump(t + 2)), t + 2)
  {
    assert Terminated(Append(s1, Jump(t + 2)).blocks[t + 1]);
  }

  lemma {:induction false} ThenGrows(c: Exp, thn: Stmt, s: State)
    requires Valid(s)
    ensures var (s1, op) := LowerExp(c, s);
            var s3 := LowerStmt(thn, IfStart(op, s1));
            var s4 := IfElse(|s1.blocks|, s3);
            && Grows(s, s1) && Grows(s1, s3) && Grows(IfStart(op, s1), s3) && Grows(s1, s4) && Grows(s, s4)
            && s4 == Enter(Append(s3.(returned := false), Jump(|s1.blocks| + 2)), |s1.blocks| + 1)
            && s4.cond == s.cond && s4.end == s.end && !s4.returned && Extended(s3.blocks, s4.blocks) && Valid(s3)
            && |s1.blocks| + 2 < |s4.blocks|
            && s4.blocks[|s1.blocks| + 1] == s4.blocks[|s1.blocks| + 2] == []
    decreases thn, 2
  {
    hide Grows, Extended, AppendTo, IfStart;
    var (s1, op) := LowerExp(c, s);
    var s2 := IfStart(op, s1);
    var s3 := LowerStmt(thn, s2);
    ExpGrows(c, s);
    GrowsMeans(s, s1);
    IfStartGrows(op, s1);
    StmtGrows(thn, s2);
    GrowsMeans(s2, s3);
    GrowsThrough(s1, s2, s3);
    IfElseGrows(s1, s2, s3);
    GrowsThrough(s, s1, IfElse(|s1.blocks|, s3));
  }

  lemma {:induction false} WhileGrows(st: Stmt, s: State)
    requires Valid(s) && st.While?
    ensures Grows(s, LowerStmt(st, s)) && AfterStmt(st, s, LowerStmt(st, s))
    decreases st, 0
  {
    hide Grows, Extended, AppendTo, WhileStart;
    var While(c, body) := st;
    var b := |s.blocks|;
    var s0 := WhileStart(s);
    var (s1, op) := LowerExp(c, s0);
    var s2 := WhileBody(b, op, s1);
    var s3 := LowerStmt(body, s2);
    WhileStartGrows(s);
    ExpGrows(c, s0);
    GrowsMeans(s0, s1);
    GrowsThrough(s, s0, s1);
    GrowsGoTo(s, s1, Branch(op, b + 1, b + 2), b + 1);
    assert Grows(s, s2) by { GrowsContext(s, Enter(Append(s1, Branch(op, b + 1, b + 2)), b + 1), b, b + 2,
                                          s1.returned); }
    StmtGrows(body, s2);
    GrowsMeans(s2, s3);
    GrowsThrough(s, s2, s3);
    GrowsContext(s, s3, s.cond, s.end, false);
    GrowsGoTo(s, s3.(returned := false, cond := s.cond, end := s.end), Jump(b), b + 2);
  }

  lemma {:induction false} ItemsGrow(items: Items, s: State)
    requires Valid(s)
    ensures Grows(s, LowerItems(items, s))
    ensures LowerItems(items, s).cond == s.cond && LowerItems(items, s).end == s.end
  {
    GrowsSelf(s);
    hide Grows;
    if items.Items? && !s.returned {
      var s1 := LowerItem(items.head, s);
      ItemGrows(items.head, s);
      GrowsMeans(s, s1);
      ItemsGrow(items.tail, s1);
      GrowsThrough(s, s1, LowerItems(items.tail, s1));
    }
  }

  /** Only a `return` statement raises the flag. */
  lemma {:induction false} ItemGrows(item: Item, s: State)
    requires Valid(s)
    ensures var t := LowerItem(item, s);
            && Grows(s, t) && t.cond == s.cond && t.end == s.end
            && (!s.returned ==> t.returned == (item.Stm? && item.s.Return?))
  {
    match item
    case ConstDecl =>
    case VarDecl(defs) => DefsGrow(defs, s);
    case Stm(st) => StmtGrows(st, s);
  }

  lemma InitGrows(init: Option<Exp>, x: nat, s: State)
    requires Valid(s)
    ensures var t := if init.None? then s
                     else Append(LowerExp(init.value, s).0, Inst.Store(LowerExp(init.value, s).1, Of(Local(x))));
            Grows(s, t) && SameContext(s, t)
  {
    GrowsSelf(s);
    hide Grows;
    if init.Some? {
      ExpGrows(init.value, s);
      GrowsAppend(s, LowerExp(init.value, s).0, Inst.Store(LowerExp(init.value, s).1, Of(Local(x))));
    }
  }

  lemma {:induction false} DefsGrow(defs: Defs, s: State)
    requires Valid(s)
    ensures Grows(s, LowerDefs(defs, s)) && SameContext(s, LowerDefs(defs, s))
  {
    match defs
    case NoDefs =>
    case Defs(VarDef(x, init), rest) =>
      var s1 := Append(s, Alloc(Of(Local(x))));
      GrowsAppendTo(s, s, s.cur, Alloc(Of(Local(x))));
      if init.None? {
        DefsGrow(rest, s1);
        GrowsThrough(s, s1, LowerDefs(rest, s1));
      } else {
        var (s2, op) := LowerExp(init.value, s1);
        var s3 := Append(s2, Inst.Store(op, Of(Local(x))));
        ExpGrows(init.value, s1);
        GrowsThrough(s, s1, s2);
        GrowsAppendTo(s, s2, s2.cur, Inst.Store(op, Of(Local(x))));
        DefsGrow(rest, s3);
        GrowsThrough(s, s3, LowerDefs(rest, s3));
      }
  }
}
