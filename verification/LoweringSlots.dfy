/**
 * Slots: every slot used has an `alloc` exactly when nothing that a `return` closed off was needed. Each step of
 * lowering keeps that if and only if the statement it lowers meets the rule on dead code.
 */
module LoweringSlots {
  import opened Words
  import opened Source
  import opened Koopa
  import opened Lowering
  import opened LoweringShape
  import opened LoweringLocal
  import opened LoweringOwn

  // ----- what is allocated and what is used -----

  /** Temporaries have ids below n. */
  predicate Below(i: Inst, n: nat)
  {
    match i
    case Alloc(Temp(k)) => k < n
    case Load(_, Temp(k)) => k < n
    case Store(_, Temp(k)) => k < n
    case _ => true
  }

  ghost predicate Numbered(g: Graph, n: nat)
  {
    forall b: nat, k: nat :: b < |g| && k < |g[b]| ==> Below(g[b][k], n)
  }

  predicate NewSlot(p: Slot, lo: nat, hi: nat, xs: set<nat>)
  {
    match p
    case Of(v) => v.Local? && v.x in xs
    case Temp(n) => lo <= n < hi
  }

  /** From s to t the variables xs got an `alloc`, and otherwise only new temporaries. */
  ghost predicate Adds(xs: set<nat>, s: State, t: State)
  {
    && s.next <= t.next
    && (forall p: Slot :: AllocatedIn(t.blocks, p) ==> AllocatedIn(s.blocks, p) || NewSlot(p, s.next, t.next, xs))
    && (forall p: Slot :: AllocatedIn(s.blocks, p) ==> AllocatedIn(t.blocks, p))
    && (forall x :: x in xs ==> AllocatedIn(t.blocks, Of(Var.Local(x))))
  }

  ghost predicate PlacedIn(r: Rules, g: Graph, p: Slot)
  {
    match p
    case Of(v) => v.Local? ==> v.x in r.made
    case Temp(_) => AllocatedIn(g, p)
  }

  ghost predicate UseOk(r: Rules, g: Graph, i: Inst)
  {
    match i
    case Load(_, src) => PlacedIn(r, g, src)
    case Store(_, dest) => PlacedIn(r, g, dest)
    case _ => true
  }

  /** Every slot used is one of the function's variables with an `alloc`, or an allocated temporary. */
  ghost predicate Held(r: Rules, g: Graph)
  {
    forall b: nat, k: nat :: b < |g| && k < |g[b]| ==> UseOk(r, g, g[b][k])
  }

  /** From s to t the slots used stay allocated exactly if the condition holds. */
  ghost predicate Holds(r: Rules, ok: bool, xs: set<nat>, s: State, t: State)
  {
    Adds(xs, s, t) && Numbered(t.blocks, t.next) && (Held(r, t.blocks) <==> Held(r, s.blocks) && ok)
  }

  lemma AddsThrough(xs: set<nat>, ys: set<nat>, s: State, t: State, u: State)
    requires Adds(xs, s, t) && Adds(ys, t, u)
    ensures Adds(xs + ys, s, u)
  {
    hide AllocatedIn;
  }

  lemma HoldsThrough(r: Rules, a: bool, b: bool, xs: set<nat>, ys: set<nat>, s: State, t: State, u: State)
    requires Holds(r, a, xs, s, t) && Holds(r, b, ys, t, u)
    ensures Holds(r, a && b, xs + ys, s, u)
  {
    hide Adds, Held, Numbered;
    AddsThrough(xs, ys, s, t, u);
  }

  /** Steps that allocate no variable. */
  lemma HoldsOn(r: Rules, a: bool, b: bool, xs: set<nat>, s: State, t: State, u: State)
    requires Holds(r, a, xs, s, t) && Holds(r, b, {}, t, u)
    ensures Holds(r, a && b, xs, s, u)
  {
    hide Holds;
    HoldsThrough(r, a, b, xs, {}, s, t, u);
    assert xs + {} == xs;
  }

  lemma HoldsSelf(r: Rules, s: State)
    requires Numbered(s.blocks, s.next)
    ensures Holds(r, true, {}, s, s)
  {
    hide AllocatedIn, Held, Numbered;
  }

  lemma HoldsSame(r: Rules, ok: bool, xs: set<nat>, s: State, t: State, u: State)
    requires Holds(r, ok, xs, s, t) && u.blocks == t.blocks && u.next == t.next
    ensures Holds(r, ok, xs, s, u)
  {
    hide AllocatedIn, Held, Below;
  }

  lemma HoldsFrom(r: Rules, ok: bool, xs: set<nat>, s: State, s1: State, t: State)
    requires Holds(r, ok, xs, s, t) && s1.blocks == s.blocks && s1.next <= s.next
    ensures Holds(r, ok, xs, s1, t)
  {
    hide AllocatedIn, Held, Numbered;
  }

  lemma HoldsMeans(r: Rules, ok: bool, xs: set<nat>, s: State, t: State)
    requires Holds(r, ok, xs, s, t)
    ensures Numbered(t.blocks, t.next)
  {
  }

  // ----- single instructions -----

  lemma AllocatedAppend(s: State, i: Inst, p: Slot)
    requires Valid(s)
    ensures AllocatedIn(Append(s, i).blocks, p) <==> AllocatedIn(s.blocks, p) || (OpenAt(s) && AllocOf(i, p))
  {
    var g, h := s.blocks, Append(s, i).blocks;
    if OpenAt(s) {
      var n := |g[s.cur]|;
      if AllocOf(i, p) {
        assert AllocOf(h[s.cur][n], p);
        assert Allocates(h[s.cur], p);
      }
      if AllocatedIn(g, p) {
        var b: nat :| b < |g| && Allocates(g[b], p);
        var k :| 0 <= k < |g[b]| && AllocOf(g[b][k], p);
        assert AllocOf(h[b][k], p);
        assert Allocates(h[b], p);
      }
      if AllocatedIn(h, p) && !AllocOf(i, p) {
        var b: nat :| b < |h| && Allocates(h[b], p);
        var k :| 0 <= k < |h[b]| && AllocOf(h[b][k], p);
        assert AllocOf(g[b][k], p);
        assert Allocates(g[b], p);
      }
    }
  }

  lemma NumberedAppend(s: State, i: Inst)
    requires Numbered(s.blocks, s.next) && Below(i, s.next)
    ensures Numbered(Append(s, i).blocks, s.next)
  {
    hide Below;
  }

  /** An instruction that allocates nothing. */
  lemma UseAppend(r: Rules, s: State, i: Inst)
    requires Valid(s) && Numbered(s.blocks, s.next) && Below(i, s.next) && !i.Alloc?
    ensures Holds(r, OpenAt(s) ==> UseOk(r, s.blocks, i), {}, s, Append(s, i))
  {
    hide AllocatedIn;
    var g, h := s.blocks, Append(s, i).blocks;
    forall p: Slot ensures AllocatedIn(h, p) <==> AllocatedIn(g, p) {
      AllocatedAppend(s, i, p);
    }
    NumberedAppend(s, i);
    assert forall j: Inst :: UseOk(r, h, j) <==> UseOk(r, g, j);
    hide UseOk, Below, Numbered;
    if OpenAt(s) {
      HeldMore(r, s, i, h);
    }
  }

  lemma HeldMore(r: Rules, s: State, i: Inst, g: Graph)
    requires OpenAt(s)
    ensures var h := Append(s, i).blocks;
            (forall b: nat, k: nat :: b < |h| && k < |h[b]| ==> UseOk(r, g, h[b][k])) <==>
            (forall b: nat, k: nat :: b < |s.blocks| && k < |s.blocks[b]| ==> UseOk(r, g, s.blocks[b][k]))
            && UseOk(r, g, i)
  {
    hide UseOk;
    var f, h, n := s.blocks, Append(s, i).blocks, |s.blocks[s.cur]|;
    assert h[s.cur][n] == i;
    assert forall b: nat, k: nat :: b < |f| && k < |f[b]| ==> h[b][k] == f[b][k];
    assert forall b: nat :: b < |h| && b != s.cur ==> h[b] == f[b];
  }

  /** The `alloc` of a variable, or of a temporary that no instruction so far uses. */
  lemma AllocAppend(r: Rules, s: State, p: Slot, n: nat)
    requires Valid(s) && Numbered(s.blocks, n) && n <= s.next && (p.Temp? ==> n <= p.id < s.next)
    ensures var t := Append(s, Alloc(p));
            Numbered(t.blocks, s.next) && t.next == s.next && (Held(r, t.blocks) <==> Held(r, s.blocks))
  {
    hide AllocatedIn;
    var g, h := s.blocks, Append(s, Alloc(p)).blocks;
    forall q: Slot ensures AllocatedIn(h, q) <==> AllocatedIn(g, q) || (OpenAt(s) && p == q) {
      AllocatedAppend(s, Alloc(p), q);
    }
    assert Numbered(g, s.next);
    NumberedAppend(s, Alloc(p));
    assert forall j: Inst :: Below(j, n) ==> (UseOk(r, h, j) <==> UseOk(r, g, j));
    assert UseOk(r, h, Alloc(p));
    hide UseOk, Below;
    if OpenAt(s) {
      HeldMore(r, s, Alloc(p), h);
    }
  }

  lemma VarAlloc(r: Rules, s: State, x: nat)
    requires Valid(s) && Numbered(s.blocks, s.next)
    ensures Holds(r, true, if OpenAt(s) then {x} else {}, s, Append(s, Alloc(Of(Var.Local(x)))))
  {
    hide AllocatedIn, Held, Numbered;
    var p := Of(Var.Local(x));
    AllocAppend(r, s, p, s.next);
    forall q: Slot ensures AllocatedIn(Append(s, Alloc(p)).blocks, q) <==>
      AllocatedIn(s.blocks, q) || (OpenAt(s) && p == q) {
      AllocatedAppend(s, Alloc(p), q);
    }
  }

  /** An instruction that takes the next id. */
  lemma UseEmit(r: Rules, s: State, i: Inst)
    requires Valid(s) && Numbered(s.blocks, s.next) && Below(i, s.next) && !i.Alloc?
    ensures Holds(r, OpenAt(s) ==> UseOk(r, s.blocks, i), {}, s, Emit(s, i))
  {
    hide AllocatedIn, Held, UseOk;
    var s1 := NewId(s);
    assert Numbered(s1.blocks, s1.next);
    UseAppend(r, s1, i);
    HoldsFrom(r, OpenAt(s1) ==> UseOk(r, s1.blocks, i), {}, s1, s, Append(s1, i));
  }

  lemma HoldsNew(r: Rules, s: State, n: nat)
    requires Numbered(s.blocks, s.next)
    ensures Holds(r, true, {}, s, NewBlocks(s, n))
  {
    var g, h := s.blocks, NewBlocks(s, n).blocks;
    forall p: Slot ensures AllocatedIn(h, p) <==> AllocatedIn(g, p) {
      if AllocatedIn(g, p) {
        var b: nat :| b < |g| && Allocates(g[b], p);
        assert Allocates(h[b], p);
      }
    }
    assert forall i: Inst :: UseOk(r, h, i) <==> UseOk(r, g, i);
    hide UseOk, AllocatedIn, Below;
    assert forall b: nat, k: nat :: b < |g| && k < |g[b]| ==> h[b][k] == g[b][k];
    assert forall b: nat :: |g| <= b < |h| ==> h[b] == [];
  }

  /** An instruction that is right if it is not dropped. */
  lemma HoldsMore(r: Rules, ok: bool, xs: set<nat>, s: State, t: State, i: Inst)
    requires Holds(r, ok, xs, s, t) && Valid(t) && Below(i, t.next) && !i.Alloc?
             && (OpenAt(t) ==> UseOk(r, t.blocks, i))
    ensures Holds(r, ok, xs, s, Append(t, i))
  {
    hide Adds, Held, Numbered, OpenAt, UseOk, AppendTo, Below;
    UseAppend(r, t, i);
    HoldsOn(r, ok, true, xs, s, t, Append(t, i));
  }

  // ----- expressions -----

  /** Wherever an expression is lowered, the slots used are allocated afterwards if and only if they were, its
      variables have an `alloc`, and no temporary of it is dropped. */
  lemma {:induction false} ExpSlots(r: Rules, e: Exp, s: State)
    requires Based(r, s) && ExpTyped(r.fs, e) && Numbered(s.blocks, s.next)
    ensures Holds(r, ExpKept(r.made, !OpenAt(s), e), {}, s, LowerExp(e, s).0)
    decreases e, 2
  {
    hide Holds, DefsAt, OpenAt, AppendTo, Based, Follows, Numbered, AllocatedIn;
    HoldsSelf(r, s);
    BasedMeans(r, s);
    match e
    case Num(_) =>
    case LVal(Constant(_)) =>
    case LVal(Variable(v)) => UseEmit(r, s, Load(s.next, Of(v)));
    case Call(f, args) => CallSlots(r, f, args, s);
    case Plus(e0) => ExpSlots(r, e0, s);
    case Neg(e0) => UnarySlots(r, Sub, e0, s);
    case Not(e0) => UnarySlots(r, BinOp.Eq, e0, s);
    case Binary(op, l, x) =>
      var (s1, a) := LowerExp(l, s);
      var (s2, b) := LowerExp(x, s1);
      ExpFollows(r, l, s);
      FollowsMeans(r, HasLogic(l), s, s1);
      ExpFollows(r, x, s1);
      FollowsMeans(r, HasLogic(x), s1, s2);
      ExpSlots(r, l, s);
      HoldsMeans(r, ExpKept(r.made, !OpenAt(s), l), {}, s, s1);
      ExpSlots(r, x, s1);
      HoldsOn(r, ExpKept(r.made, !OpenAt(s), l), ExpKept(r.made, !OpenAt(s1), x), {}, s, s1, s2);
      EmitOn(r, ExpKept(r.made, !OpenAt(s), e), s, s2, Inst.Binary(s2.next, op, a, b));
    case Logic(_, _, _) => LogicSlots(r, e, s);
  }

  lemma EmitOn(r: Rules, ok: bool, s: State, t: State, i: Inst)
    requires Holds(r, ok, {}, s, t) && Based(r, t) && i.Binary?
    ensures Holds(r, ok, {}, s, Emit(t, i))
  {
    hide Adds, Held, Numbered, OpenAt, AppendTo;
    UseEmit(r, t, i);
    HoldsOn(r, ok, true, {}, s, t, Emit(t, i));
  }

  lemma {:induction false} UnarySlots(r: Rules, op: BinOp, e0: Exp, s: State)
    requires Based(r, s) && ExpTyped(r.fs, e0) && Numbered(s.blocks, s.next)
    ensures var (s1, a) := LowerExp(e0, s);
            Holds(r, ExpKept(r.made, !OpenAt(s), e0), {}, s, Emit(s1, Inst.Binary(s1.next, op, Imm(0), a)))
    decreases e0, 3
  {
    hide Holds, DefsAt, OpenAt, AppendTo, Based, Follows, Numbered;
    var (s1, a) := LowerExp(e0, s);
    ExpFollows(r, e0, s);
    FollowsMeans(r, HasLogic(e0), s, s1);
    ExpSlots(r, e0, s);
    EmitOn(r, ExpKept(r.made, !OpenAt(s), e0), s, s1, Inst.Binary(s1.next, op, Imm(0), a));
  }

  ghost predicate ArgsKept(made: set<nat>, closed: bool, es: Exps)
  {
    if closed then !ArgsHaveLogic(es) else ArgsRead(made, es)
  }

  /** A call of either kind. */
  lemma {:induction false} CallSlots(r: Rules, f: Callee, args: Exps, s: State)
    requires Based(r, s) && ArgsTyped(r.fs, args) && Numbered(s.blocks, s.next)
    ensures Holds(r, ArgsKept(r.made, !OpenAt(s), args), {}, s, LowerExp(Exp.Call(f, args), s).0)
    decreases args, 2
  {
    hide Held, Adds, DefsAt, AppendTo, Follows, ArgsKept;
    var s0 := NewId(s);
    var (s1, ops) := LowerArgs(args, s0);
    ArgsFollow(r, args, s0);
    FollowsMeans(r, ArgsHaveLogic(args), s0, s1);
    ArgsSlots(r, args, s0);
    HoldsFrom(r, ArgsKept(r.made, !OpenAt(s), args), {}, s0, s, s1);
    HoldsMore(r, ArgsKept(r.made, !OpenAt(s), args), {}, s, s1, Inst.Call(s.next, f, ops));
  }

  lemma {:induction false} ArgsSlots(r: Rules, es: Exps, s: State)
    requires Based(r, s) && ArgsTyped(r.fs, es) && Numbered(s.blocks, s.next)
    ensures Holds(r, ArgsKept(r.made, !OpenAt(s), es), {}, s, LowerArgs(es, s).0)
    decreases es, 1
  {
    hide Holds, OpenAt, Based, Follows, Numbered;
    HoldsSelf(r, s);
    match es
    case NoExps =>
    case Exps(e, rest) =>
      var s1 := LowerExp(e, s).0;
      ExpFollows(r, e, s);
      FollowsMeans(r, HasLogic(e), s, s1);
      ExpSlots(r, e, s);
      HoldsMeans(r, ExpKept(r.made, !OpenAt(s), e), {}, s, s1);
      ArgsSlots(r, rest, s1);
      HoldsOn(r, ExpKept(r.made, !OpenAt(s), e), ArgsKept(r.made, !OpenAt(s1), rest), {}, s, s1, LowerArgs(rest, s1).0);
  }

  /** The temporary of a logical operator is allocated if the block is open. */
  lemma LogicStartSlots(r: Rules, op: LogicOp, s: State)
    requires Based(r, s) && Numbered(s.blocks, s.next)
    ensures var t := LogicStart(op, s);
            Holds(r, true, {}, s, t) && (AllocatedIn(t.blocks, Temp(s.next)) <==> OpenAt(s))
              && (OpenAt(t) <==> OpenAt(s))
  {
    hide AllocatedIn, Held, Numbered;
    HoldsNew(r, s, 2);
    OwnNew(r, s, 2);
    var tmp := Temp(s.next);
    var s1 := NewId(NewBlocks(s, 2)).(bbs := s.bbs + [|s.blocks|, |s.blocks| + 1]);
    var s2 := Append(s1, Alloc(tmp));
    TempNew(s, s1);
    AllocAppend(r, s1, tmp, s.next);
    forall q: Slot ensures AllocatedIn(s2.blocks, q) <==> AllocatedIn(s1.blocks, q) || (OpenAt(s1) && tmp == q) {
      AllocatedAppend(s1, Alloc(tmp), q);
    }
    assert Holds(r, true, {}, s, s2);
    DefsAppend(r, s1, Alloc(tmp));
    var st := Inst.Store(Imm(LogicInit(op)), tmp);
    HoldsMore(r, true, {}, s, s2, st);
    DefsAppend(r, s2, st);
    AllocatedAppend(s2, st, tmp);
  }

  /** No instruction uses the temporary yet. */
  lemma TempNew(s: State, s1: State)
    requires Numbered(s.blocks, s.next) && s1.blocks == NewBlocks(s, 2).blocks
    ensures Numbered(s1.blocks, s.next) && !AllocatedIn(s1.blocks, Temp(s.next))
  {
    forall b: nat | b < |s1.blocks| ensures !Allocates(s1.blocks[b], Temp(s.next)) {
      assert b >= |s.blocks| ==> s1.blocks[b] == [];
      forall k | 0 <= k < |s1.blocks[b]| ensures !AllocOf(s1.blocks[b][k], Temp(s.next)) {
        assert Below(s.blocks[b][k], s.next);
      }
    }
  }

  lemma LogicTurnSlots(r: Rules, op: LogicOp, l: Operand, rhs: nat, s: State)
    requires Based(r, s) && Numbered(s.blocks, s.next)
    ensures Holds(r, true, {}, s, LogicTurn(op, l, rhs, s))
  {
    hide Holds, OpenAt, AppendTo, Numbered;
    var i := Inst.Binary(s.next, LogicTest(op), l, Imm(0));
    HoldsSelf(r, s);
    EmitOn(r, true, s, s, i);
    OwnEmit(r, s, i);
    var s1 := Emit(s, i);
    HoldsMore(r, true, {}, s, s1, Branch(Res(s.next), rhs, rhs + 1));
    AppendSame(s1, Branch(Res(s.next), rhs, rhs + 1));
    HoldsSame(r, true, {}, s, Append(s1, Branch(Res(s.next), rhs, rhs + 1)), LogicTurn(op, l, rhs, s));
  }

  /** The result is stored, which needs the temporary. */
  lemma LogicJoinSlots(r: Rules, x: Operand, rhs: nat, tmp: nat, s: State)
    requires Based(r, s) && Numbered(s.blocks, s.next) && OpenAt(s) && tmp < s.next
    ensures Holds(r, AllocatedIn(s.blocks, Temp(tmp)), {}, s, LogicJoin(x, rhs, tmp, s))
  {
    hide Holds, OpenAt, AppendTo, Numbered, AllocatedIn;
    var i, st := Inst.Binary(s.next, Ne, x, Imm(0)), Inst.Store(Res(s.next), Temp(tmp));
    HoldsSelf(r, s);
    EmitOn(r, true, s, s, i);
    OwnEmit(r, s, i);
    var s1 := Emit(s, i);
    HoldsMeans(r, true, {}, s, s1);
    AllocatedAppend(NewId(s), i, Temp(tmp));
    UseAppend(r, s1, st);
    DefsAppend(r, s1, st);
    var ok := AllocatedIn(s.blocks, Temp(tmp));
    HoldsOn(r, true, ok, {}, s, s1, Append(s1, st));
    HoldsMore(r, ok, {}, s, Append(s1, st), Jump(rhs + 1));
    AppendSame(Append(s1, st), Jump(rhs + 1));
    HoldsSame(r, ok, {}, s, Append(Append(s1, st), Jump(rhs + 1)), LogicJoin(x, rhs, tmp, s));
  }

  /** A temporary from before is allocated afterwards exactly if it was. */
  lemma TempStays(r: Rules, ok: bool, s: State, t: State, n: nat)
    requires Holds(r, ok, {}, s, t) && n < s.next
    ensures AllocatedIn(t.blocks, Temp(n)) <==> AllocatedIn(s.blocks, Temp(n))
  {
    hide AllocatedIn, Held, Numbered;
  }

  lemma {:induction false} LogicSlots(r: Rules, e: Exp, s: State)
    requires Based(r, s) && e.Logic? && ExpTyped(r.fs, e) && Numbered(s.blocks, s.next)
    ensures Holds(r, ExpKept(r.made, !OpenAt(s), e), {}, s, LowerExp(e, s).0)
    decreases e, 1
  {
    hide Holds, OpenAt, AppendTo, Based, Follows, Grows, Extended, Numbered, AllocatedIn, LogicStart, LogicTurn,
         LogicJoin, ExpKept;
    BasedMeans(r, s);
    var s0, s1, s2, s3, s4 := LogicGrows(e, s);
    LogicBased(r, s, s0, s1, s2, s3, s4);
    var rhs, tmp, keptL := |s.blocks|, s.next, ExpKept(r.made, !OpenAt(s), e.l);
    LogicStartSlots(r, e.lop, s);
    HoldsMeans(r, true, {}, s, s0);
    ExpSlots(r, e.l, s0);
    HoldsOn(r, true, keptL, {}, s, s0, s1);
    HoldsMeans(r, keptL, {}, s, s1);
    LogicTurnSlots(r, e.lop, LowerExp(e.l, s0).1, rhs, s1);
    HoldsOn(r, keptL, true, {}, s, s1, s2);
    HoldsMeans(r, keptL, {}, s, s2);
    EmptyOpen(s2);
    LogicRest(r, e, keptL, s, s2, s3, s4);
    HoldsOn(r, keptL, true, {}, s0, s1, s2);
    TempStays(r, keptL, s0, s2, tmp);
    KeptLogic(r.made, !OpenAt(s), e);
  }

  lemma KeptLogic(made: set<nat>, closed: bool, e: Exp)
    requires e.Logic?
    ensures ExpKept(made, closed, e) <==> ExpKept(made, closed, e.l) && ExpKept(made, false, e.r) && !closed
  {
  }

  lemma EmptyOpen(s: State)
    requires Valid(s) && s.blocks[s.cur] == []
    ensures OpenAt(s)
  {
  }

  /** The right side, and the result through the temporary. */
  lemma {:induction false} LogicRest(r: Rules, e: Exp, ok: bool, s: State, s2: State, s3: State, s4: State)
    requires e.Logic? && ExpTyped(r.fs, e) && Holds(r, ok, {}, s, s2) && s.next < s2.next && OpenAt(s2)
    requires Based(r, s2) && Based(r, s3) && Based(r, s4) && s3 == LowerExp(e.r, s2).0 && s2.next <= s3.next < s4.next
    requires s4 == LogicJoin(LowerExp(e.r, s2).1, |s.blocks|, s.next, s3)
    ensures Holds(r, ok && ExpKept(r.made, false, e.r) && AllocatedIn(s2.blocks, Temp(s.next)), {}, s,
                  Emit(s4, Load(s4.next, Temp(s.next))))
    decreases e, 0
  {
    hide Holds, OpenAt, AppendTo, Based, Follows, Numbered, AllocatedIn, LogicJoin, ExpKept;
    var keptR, made, tmp := ExpKept(r.made, false, e.r), AllocatedIn(s2.blocks, Temp(s.next)), s.next;
    HoldsMeans(r, ok, {}, s, s2);
    ExpSlots(r, e.r, s2);
    ExpFollows(r, e.r, s2);
    FollowsMeans(r, HasLogic(e.r), s2, s3);
    HoldsMeans(r, keptR, {}, s2, s3);
    HoldsOn(r, ok, keptR, {}, s, s2, s3);
    TempStays(r, keptR, s2, s3, tmp);
    BasedMeans(r, s4);
    LogicJoinSlots(r, LowerExp(e.r, s2).1, |s.blocks|, tmp, s3);
    HoldsOn(r, ok && keptR, made, {}, s, s3, s4);
    TempStays(r, made, s3, s4, tmp);
    LoadTemp(r, ok && keptR, made, tmp, s, s4);
  }

  lemma LoadTemp(r: Rules, ok: bool, made: bool, tmp: nat, s: State, t: State)
    requires Holds(r, ok && made, {}, s, t) && Valid(t) && tmp < t.next && (made <==> AllocatedIn(t.blocks, Temp(tmp)))
    ensures Holds(r, ok && made, {}, s, Emit(t, Load(t.next, Temp(tmp))))
  {
    hide Adds, Held, Numbered, OpenAt, AppendTo, AllocatedIn;
    UseEmit(r, t, Load(t.next, Temp(tmp)));
    HoldsOn(r, ok && made, OpenAt(t) ==> made, {}, s, t, Emit(t, Load(t.next, Temp(tmp))));
  }

  // ----- whether the cursor's block is closed -----

  lemma {:induction false} StmtOpens(r: Rules, st: Stmt, s: State)
    requires Based(r, s) && StmtTyped(r.fs, r.params, st) && !s.returned
    ensures OpenAt(LowerStmt(st, s)) <==> !StmtCloses(!OpenAt(s), st)
    decreases st, 1
  {
    hide Based, OpenAt, DefsAt, Follows, AppendTo, Grows;
    BasedMeans(r, s);
    match st
    case Empty =>
    case Assign(v, e) =>
      ExpFollows(r, e, s);
      FollowsMeans(r, HasLogic(e), s, LowerExp(e, s).0);
      DefsAppend(r, LowerExp(e, s).0, Inst.Store(LowerExp(e, s).1, Of(v)));
    case Eval(e) =>
      if ExpTyped(r.fs, e) {
        ExpFollows(r, e, s);
        FollowsMeans(r, HasLogic(e), s, LowerExp(e, s).0);
      } else {
        CallOpens(r, e.f, e.args, s);
      }
    case Block(items) =>
      ItemsOpen(r, items, s);
      OpenSame(LowerItems(items, s), LowerStmt(st, s));
    case Return(None) =>
      ReturnCloses(s, None);
      OpenSame(Append(s, Inst.Return(None)), LowerStmt(st, s));
    case Return(Some(e)) =>
      ReturnCloses(LowerExp(e, s).0, Some(LowerExp(e, s).1));
      OpenSame(Append(LowerExp(e, s).0, Inst.Return(Some(LowerExp(e, s).1))), LowerStmt(st, s));
    case If(_, _, _) => IfOpens(st, s);
    case While(_, _) => WhileOpens(st, s);
    case Break =>
      LeaveGrows(s, s.end);
      GrowsMeans(s, LowerStmt(st, s));
      EmptyOpen(LowerStmt(st, s));
    case Continue =>
      LeaveGrows(s, s.cond);
      GrowsMeans(s, LowerStmt(st, s));
      EmptyOpen(LowerStmt(st, s));
  }

  lemma OpenSame(s: State, t: State)
    requires t.blocks == s.blocks && t.cur == s.cur
    ensures OpenAt(t) <==> OpenAt(s)
  {
  }

  lemma ReturnCloses(s: State, op: Option<Operand>)
    ensures !OpenAt(Append(s, Inst.Return(op)))
  {
  }

  lemma CallOpens(r: Rules, f: Callee, args: Exps, s: State)
    requires Based(r, s) && ArgsTyped(r.fs, args)
    ensures OpenAt(LowerExp(Exp.Call(f, args), s).0) <==> OpenAt(s) || ArgsHaveLogic(args)
  {
    hide DefsAt, AppendTo, Follows;
    var (s1, ops) := LowerArgs(args, NewId(s));
    ArgsFollow(r, args, NewId(s));
    FollowsMeans(r, ArgsHaveLogic(args), NewId(s), s1);
    DefsAppend(r, s1, Inst.Call(s.next, f, ops));
  }

  lemma {:induction false} IfOpens(st: Stmt, s: State)
    requires Valid(s) && st.If?
    ensures OpenAt(LowerStmt(st, s))
  {
    hide OpenAt, AppendTo, Grows, Extended, IfStart, IfElse, LowerElse;
    var (s1, op) := LowerExp(st.cond, s);
    var t := |s1.blocks|;
    var s4 := IfElse(t, LowerStmt(st.thn, IfStart(op, s1)));
    ExpGrows(st.cond, s);
    GrowsMeans(s, s1);
    ThenGrows(st.cond, st.thn, s);
    ElseGrows(s1, st.els, t, s4);
    EmptyOpen(LowerStmt(st, s));
  }

  lemma {:induction false} WhileOpens(st: Stmt, s: State)
    requires Valid(s) && st.While?
    ensures OpenAt(LowerStmt(st, s))
  {
    hide OpenAt, Grows, Extended, WhileStart;
    var While(c, body) := st;
    var b := |s.blocks|;
    var s0 := WhileStart(s);
    var (s1, op) := LowerExp(c, s0);
    var s2 := WhileBody(b, op, s1);
    var s3 := LowerStmt(body, s2);
    WhileStartGrows(s);
    ExpGrows(c, s0);
    GrowsMeans(s0, s1);
    StmtGrows(body, s2);
    GrowsMeans(s2, s3);
    EmptyOpen(WhileEnd(s, s3));
  }

  lemma {:induction false} ItemsOpen(r: Rules, items: Items, s: State)
    requires Based(r, s) && ItemsTyped(r.fs, r.params, items) && !s.returned
    ensures OpenAt(LowerItems(items, s)) <==> !ItemsClose(!OpenAt(s), items)
    decreases items, 1
  {
    hide Based, OpenAt, Grows;
    BasedMeans(r, s);
    match items
    case NoItems =>
    case Items(item, rest) =>
      var s1 := LowerItem(item, s);
      ItemGrows(item, s);
      BasedGrows(r, s, s1);
      match item {
        case ConstDecl => ItemsOpen(r, rest, s);
        case VarDecl(defs) =>
          DefsOpen(r, defs, s);
          ItemsOpen(r, rest, s1);
        case Stm(st) =>
          StmtOpens(r, st, s);
          if !st.Return? { ItemsOpen(r, rest, s1); }
      }
  }

  lemma {:induction false} DefsOpen(r: Rules, defs: Defs, s: State)
    requires Based(r, s) && DefsTyped(r.fs, r.params, defs)
    ensures OpenAt(LowerDefs(defs, s)) <==> !DefsClose(!OpenAt(s), defs)
    decreases defs, 1
  {
    hide Based, OpenAt, DefsAt, Follows, AppendTo;
    match defs
    case NoDefs =>
    case Defs(VarDef(x, init), rest) =>
      var slot := Of(Var.Local(x));
      var s1 := Append(s, Alloc(slot));
      DefsAppend(r, s, Alloc(slot));
      if init.None? {
        DefsOpen(r, rest, s1);
      } else {
        var (s2, op) := LowerExp(init.value, s1);
        ExpFollows(r, init.value, s1);
        FollowsMeans(r, HasLogic(init.value), s1, s2);
        DefsAppend(r, s2, Inst.Store(op, slot));
        DefsOpen(r, rest, Append(s2, Inst.Store(op, slot)));
      }
  }

  // ----- statements -----

  /** Wherever a statement is lowered, it gives an `alloc` to the variables declared in live code, and the slots used
      are allocated afterwards if and only if they were and it needs nothing that was dropped. */
  lemma {:induction false} StmtSlots(r: Rules, st: Stmt, s: State)
    requires Based(r, s) && StmtTyped(r.fs, r.params, st) && !s.returned && Numbered(s.blocks, s.next)
    requires StmtAllocs(!OpenAt(s), st) <= r.made
    ensures Holds(r, StmtKept(r.made, !OpenAt(s), st), StmtAllocs(!OpenAt(s), st), s, LowerStmt(st, s))
    decreases st, 1
  {
    hide Holds, OpenAt, AppendTo, Numbered, Based, Follows, ExpKept;
    HoldsSelf(r, s);
    BasedMeans(r, s);
    match st
    case Empty =>
    case Assign(v, e) => AssignSlots(r, v, e, s);
    case Eval(e) => if ExpTyped(r.fs, e) { ExpSlots(r, e, s); } else { EvalSlots(r, e, s); }
    case Block(items) =>
      ItemsSlots(r, items, s);
      HoldsSame(r, ItemsKept(r.made, !OpenAt(s), items), ItemsAllocs(!OpenAt(s), items), s, LowerItems(items, s),
                LowerStmt(st, s));
    case Return(None) =>
      AppendSame(s, Inst.Return(None));
      ReturnSlots(r, true, s, s, None, LowerStmt(st, s));
    case Return(Some(e)) =>
      ExpSlots(r, e, s);
      ExpFollows(r, e, s);
      FollowsMeans(r, HasLogic(e), s, LowerExp(e, s).0);
      AppendSame(LowerExp(e, s).0, Inst.Return(Some(LowerExp(e, s).1)));
      ReturnSlots(r, ExpKept(r.made, !OpenAt(s), e), s, LowerExp(e, s).0, Some(LowerExp(e, s).1), LowerStmt(st, s));
    case If(_, _, _) => IfSlots(r, st, s);
    case While(_, _) => WhileSlots(r, st, s);
    case Break => LeaveSlots(r, s, s.end);
    case Continue => LeaveSlots(r, s, s.cond);
  }

  lemma EvalSlots(r: Rules, e: Exp, s: State)
    requires Based(r, s) && e.Call? && ArgsTyped(r.fs, e.args) && Numbered(s.blocks, s.next)
    ensures Holds(r, ExpKept(r.made, !OpenAt(s), e), {}, s, LowerExp(e, s).0)
  {
    hide Holds, OpenAt, AppendTo, Numbered, Based;
    CallSlots(r, e.f, e.args, s);
  }

  lemma AssignSlots(r: Rules, v: Var, e: Exp, s: State)
    requires Based(r, s) && ExpTyped(r.fs, e) && Numbered(s.blocks, s.next)
    ensures Holds(r, StmtKept(r.made, !OpenAt(s), Assign(v, e)), {}, s, LowerStmt(Assign(v, e), s))
  {
    hide Holds, OpenAt, AppendTo, Numbered, Based, Follows;
    var (s1, op) := LowerExp(e, s);
    ExpSlots(r, e, s);
    ExpFollows(r, e, s);
    FollowsMeans(r, HasLogic(e), s, s1);
    BasedMeans(r, s1);
    HoldsMeans(r, ExpKept(r.made, !OpenAt(s), e), {}, s, s1);
    UseAppend(r, s1, Inst.Store(op, Of(v)));
    var ok := OpenAt(s1) ==> UseOk(r, s1.blocks, Inst.Store(op, Of(v)));
    HoldsOn(r, ExpKept(r.made, !OpenAt(s), e), ok, {}, s, s1, LowerStmt(Assign(v, e), s));
  }

  lemma ReturnSlots(r: Rules, ok: bool, s: State, t: State, op: Option<Operand>, u: State)
    requires Holds(r, ok, {}, s, t) && Based(r, t) && u.blocks == Append(t, Inst.Return(op)).blocks && u.next == t.next
    ensures Holds(r, ok, {}, s, u)
  {
    hide Holds, OpenAt, AppendTo;
    HoldsMore(r, ok, {}, s, t, Inst.Return(op));
    AppendSame(t, Inst.Return(op));
    HoldsSame(r, ok, {}, s, Append(t, Inst.Return(op)), u);
  }

  lemma LeaveSlots(r: Rules, s: State, target: nat)
    requires Based(r, s) && Numbered(s.blocks, s.next)
    ensures Holds(r, true, {}, s, Leave(s, target))
  {
    hide Holds, OpenAt, AppendTo, Numbered;
    HoldsNew(r, s, 1);
    var s1 := NewBlocks(s, 1).(bbs := s.bbs + [|s.blocks|]);
    HoldsSame(r, true, {}, s, NewBlocks(s, 1), s1);
    HoldsMore(r, true, {}, s, s1, Jump(target));
    AppendSame(s1, Jump(target));
    HoldsSame(r, true, {}, s, Append(s1, Jump(target)), Leave(s, target));
  }

  /** Three blocks are made, and the cursor goes to the first, which is open. */
  lemma ThreeSlots(r: Rules, ok: bool, s: State, t: State, i: Inst)
    requires Holds(r, ok, {}, s, t) && Based(r, t) && (i.Branch? || i.Jump?)
    ensures var u := Enter(Append(NewBlocks(t, 3), i), |t.blocks|); Holds(r, ok, {}, s, u) && OpenAt(u)
  {
    hide Adds, Held, Numbered, DefsAt;
    HoldsNew(r, t, 3);
    var u := NewBlocks(t, 3);
    HoldsOn(r, ok, true, {}, s, t, u);
    HoldsMore(r, ok, {}, s, u, i);
    AppendSame(u, i);
    HoldsSame(r, ok, {}, s, Append(u, i), Enter(Append(u, i), |t.blocks|));
    assert u.blocks[|t.blocks|] == [];
  }

  /** A jump, and the cursor to another block. */
  lemma JumpSlots(r: Rules, ok: bool, xs: set<nat>, s: State, t: State, t1: State, target: nat, u: State)
    requires Holds(r, ok, xs, s, t) && t1.blocks == t.blocks && t1.cur == t.cur && t1.next == t.next && Valid(t)
    requires u.blocks == Append(t1, Jump(target)).blocks && u.next == t.next
    ensures Holds(r, ok, xs, s, u)
  {
    hide Holds, OpenAt, AppendTo;
    HoldsSame(r, ok, xs, s, t, t1);
    HoldsMore(r, ok, xs, s, t1, Jump(target));
    AppendSame(t1, Jump(target));
    HoldsSame(r, ok, xs, s, Append(t1, Jump(target)), u);
  }

  lemma {:induction false} IfSlots(r: Rules, st: Stmt, s: State)
    requires Based(r, s) && st.If? && StmtTyped(r.fs, r.params, st) && !s.returned && Numbered(s.blocks, s.next)
    requires StmtAllocs(!OpenAt(s), st) <= r.made
    ensures Holds(r, StmtKept(r.made, !OpenAt(s), st), StmtAllocs(!OpenAt(s), st), s, LowerStmt(st, s))
    decreases st, 0
  {
    hide Holds, OpenAt, AppendTo, Grows, Extended, Based, Numbered, IfStart, IfElse, LowerElse, ExpKept;
    BasedMeans(r, s);
    var If(c, thn, els) := st;
    var (s1, op) := LowerExp(c, s);
    var s4 := IfElse(|s1.blocks|, LowerStmt(thn, IfStart(op, s1)));
    ThenSlots(r, c, thn, s);
    ThenGrows(c, thn, s);
    BasedGrows(r, s, s4);
    ExpGrows(c, s);
    GrowsMeans(s, s1);
    GrowsMeans(s1, s4);
    ElseSlots(r, els, ExpKept(r.made, !OpenAt(s), c)
              && StmtKept(r.made, false, thn), StmtAllocs(false, thn), |s1.blocks|, s, s1, s4);
  }

  lemma {:induction false} ElseSlots(r: Rules, els: Option<Stmt>, ok: bool, xs: set<nat>, t: nat, s: State, s1: State,
                                     s4: State)
    requires Holds(r, ok, xs, s, s4) && Based(r, s4) && !s4.returned
             && (els.Some? ==> StmtTyped(r.fs, r.params, els.value))
    requires Valid(s1) && Grows(s1, s4) && |s1.blocks| <= t && t + 2 < |s4.blocks| && s4.cur == t + 1
             && s4.blocks[t + 1] == []
    requires els.Some? ==> StmtAllocs(false, els.value) <= r.made
    ensures Holds(r, ok && (els.Some? ==> StmtKept(r.made, false, els.value)),
                  xs + (if els.Some? then StmtAllocs(false, els.value) else {}), s, LowerElse(els, t, s4))
    decreases els, 2
  {
    hide Holds, OpenAt, AppendTo, Grows, Extended, Based, Numbered, LowerElse;
    HoldsMeans(r, ok, xs, s, s4);
    EmptyOpen(s4);
    ElseGrows(s1, els, t, s4);
    var s5, s6 := ElseBody(els, s4), LowerElse(els, t, s4);
    AppendSame(s5, Jump(t + 2));
    assert xs + {} == xs;
    if els.Some? {
      var u := LowerStmt(els.value, s4);
      StmtSlots(r, els.value, s4);
      HoldsThrough(r, ok, StmtKept(r.made, false, els.value), xs, StmtAllocs(false, els.value), s, s4, u);
      JumpSlots(r, ok && StmtKept(r.made, false, els.value), xs + StmtAllocs(false, els.value), s, u, s5, t + 2, s6);
    } else {
      JumpSlots(r, ok, xs, s, s4, s5, t + 2, s6);
    }
  }

  /** Up to where the first part of an `if` starts. */
  lemma IfStartSlots(r: Rules, c: Exp, s: State)
    requires Based(r, s) && ExpTyped(r.fs, c) && Numbered(s.blocks, s.next)
    ensures var (s1, op) := LowerExp(c, s);
            var s2 := IfStart(op, s1);
            Holds(r, ExpKept(r.made, !OpenAt(s), c), {}, s, s2) && OpenAt(s2)
  {
    hide Holds, OpenAt, AppendTo, Grows, Based, Follows, Numbered, NewBlocks;
    var (s1, op) := LowerExp(c, s);
    ExpSlots(r, c, s);
    ExpFollows(r, c, s);
    FollowsMeans(r, HasLogic(c), s, s1);
    ThreeSlots(r, ExpKept(r.made, !OpenAt(s), c), s, s1, Branch(op, |s1.blocks|, |s1.blocks| + 1));
  }

  /** The first part of an `if`, up to where the `else` part starts. */
  lemma {:induction false} ThenSlots(r: Rules, c: Exp, thn: Stmt, s: State)
    requires Based(r, s) && ExpTyped(r.fs, c) && StmtTyped(r.fs, r.params, thn) && !s.returned
             && Numbered(s.blocks, s.next)
    requires StmtAllocs(false, thn) <= r.made
    ensures var (s1, op) := LowerExp(c, s);
            Holds(r, ExpKept(r.made, !OpenAt(s), c) && StmtKept(r.made, false, thn), StmtAllocs(false, thn), s,
                  IfElse(|s1.blocks|, LowerStmt(thn, IfStart(op, s1))))
    decreases thn, 2
  {
    hide Holds, OpenAt, AppendTo, Grows, Extended, Based, Numbered, IfElse, IfStart, ExpKept;
    BasedMeans(r, s);
    var (s1, op) := LowerExp(c, s);
    var t := |s1.blocks|;
    var s2 := IfStart(op, s1);
    var s3 := LowerStmt(thn, s2);
    var keptC, keptT, xs := ExpKept(r.made, !OpenAt(s), c), StmtKept(r.made, false, thn), StmtAllocs(false, thn);
    IfStartSlots(r, c, s);
    HoldsMeans(r, keptC, {}, s, s2);
    ExpGrows(c, s);
    BasedGrows(r, s, s1);
    GrowsMeans(s, s1);
    IfStartGrows(op, s1);
    BasedGrows(r, s1, s2);
    StmtSlots(r, thn, s2);
    HoldsThrough(r, keptC, keptT, {}, xs, s, s2, s3);
    assert {} + xs == xs;
    ThenGrows(c, thn, s);
    AppendSame(s3.(returned := false), Jump(t + 2));
    JumpSlots(r, keptC && keptT, xs, s, s3, s3.(returned := false), t + 2, IfElse(t, s3));
  }

  lemma {:induction false} WhileSlots(r: Rules, st: Stmt, s: State)
    requires Based(r, s) && st.While? && StmtTyped(r.fs, r.params, st) && !s.returned && Numbered(s.blocks, s.next)
    requires StmtAllocs(!OpenAt(s), st) <= r.made
    ensures Holds(r, StmtKept(r.made, !OpenAt(s), st), StmtAllocs(!OpenAt(s), st), s, LowerStmt(st, s))
    decreases st, 0
  {
    hide Holds, OpenAt, AppendTo, Grows, Extended, Based, Follows, Numbered, ExpKept, WhileStart;
    BasedMeans(r, s);
    var While(c, body) := st;
    var b := |s.blocks|;
    var (s1, op) := LowerExp(c, WhileStart(s));
    var s2 := WhileBody(b, op, s1);
    var s3 := LowerStmt(body, s2);
    var keptC, keptB, xs := ExpKept(r.made, false, c), StmtKept(r.made, false, body), StmtAllocs(false, body);
    WhileStartSlots(r, c, s);
    HoldsMeans(r, keptC, {}, s, s2);
    StmtSlots(r, body, s2);
    HoldsThrough(r, keptC, keptB, {}, xs, s, s2, s3);
    assert {} + xs == xs;
    BasedMeans(r, s2);
    StmtGrows(body, s2);
    GrowsMeans(s2, s3);
    var s4 := s3.(returned := false, cond := s.cond, end := s.end);
    AppendSame(s4, Jump(b));
    JumpSlots(r, keptC && keptB, xs, s, s3, s4, b, WhileEnd(s, s3));
  }

  /** A loop up to where its body starts, in an open block. */
  lemma WhileStartSlots(r: Rules, c: Exp, s: State)
    requires Based(r, s) && ExpTyped(r.fs, c) && !s.returned && Numbered(s.blocks, s.next)
    ensures var b, (s1, op) := |s.blocks|, LowerExp(c, WhileStart(s));
            var s2 := WhileBody(b, op, s1);
            Holds(r, ExpKept(r.made, false, c), {}, s, s2) && OpenAt(s2) && Based(r, s2) && !s2.returned
  {
    hide Holds, OpenAt, AppendTo, Grows, Extended, Based, Follows, Numbered, NewBlocks;
    BasedMeans(r, s);
    HoldsSelf(r, s);
    var b := |s.blocks|;
    var s0 := WhileStart(s);
    var (s1, op) := LowerExp(c, s0);
    var turn := Branch(op, b + 1, b + 2);
    ThreeSlots(r, true, s, s, Jump(b));
    HoldsMeans(r, true, {}, s, s0);
    WhileStartGrows(s);
    BasedGrows(r, s, s0);
    ExpSlots(r, c, s0);
    HoldsOn(r, true, ExpKept(r.made, false, c), {}, s, s0, s1);
    ExpGrows(c, s0);
    GrowsMeans(s0, s1);
    BasedGrows(r, s0, s1);
    HoldsMore(r, ExpKept(r.made, false, c), {}, s, s1, turn);
    AppendSame(s1, turn);
    HoldsSame(r, ExpKept(r.made, false, c), {}, s, Append(s1, turn), WhileBody(b, op, s1));
    BodyOpen(r, s1, turn, b + 1, WhileBody(b, op, s1));
  }

  lemma BodyOpen(r: Rules, s: State, i: Inst, b: nat, t: State)
    requires Based(r, s) && b < |s.blocks| && b != s.cur && s.blocks[b] == [] && t.blocks == Append(s, i).blocks
             && t.cur == b
    ensures OpenAt(t) && Based(r, t)
  {
  }

  lemma {:induction false} ItemsSlots(r: Rules, items: Items, s: State)
    requires Based(r, s) && ItemsTyped(r.fs, r.params, items) && !s.returned && Numbered(s.blocks, s.next)
    requires ItemsAllocs(!OpenAt(s), items) <= r.made
    ensures Holds(r, ItemsKept(r.made, !OpenAt(s), items), ItemsAllocs(!OpenAt(s), items), s, LowerItems(items, s))
    decreases items, 1
  {
    hide Holds, OpenAt, Based, Grows, Numbered;
    HoldsSelf(r, s);
    BasedMeans(r, s);
    match items
    case NoItems =>
    case Items(item, rest) =>
      var s1 := LowerItem(item, s);
      ItemGrows(item, s);
      BasedGrows(r, s, s1);
      match item {
        case ConstDecl => ItemsSlots(r, rest, s);
        case VarDecl(defs) =>
          var closed, closed1 := !OpenAt(s), DefsClose(!OpenAt(s), defs);
          DefsSlots(r, defs, s);
          DefsOpen(r, defs, s);
          HoldsMeans(r, DefsKept(r.made, closed, defs), DefsAllocs(closed, defs), s, s1);
          ItemsSlots(r, rest, s1);
          HoldsThrough(r, DefsKept(r.made, closed, defs), ItemsKept(r.made, closed1, rest), DefsAllocs(closed, defs),
                       ItemsAllocs(closed1, rest), s, s1, LowerItems(rest, s1));
        case Stm(st) =>
          var closed, closed1 := !OpenAt(s), StmtCloses(!OpenAt(s), st);
          StmtSlots(r, st, s);
          StmtOpens(r, st, s);
          HoldsMeans(r, StmtKept(r.made, closed, st), StmtAllocs(closed, st), s, s1);
          if st.Return? {
            assert StmtAllocs(closed, st) + {} == StmtAllocs(closed, st);
          } else {
            ItemsSlots(r, rest, s1);
            HoldsThrough(r, StmtKept(r.made, closed, st), ItemsKept(r.made, closed1, rest), StmtAllocs(closed, st),
                         ItemsAllocs(closed1, rest), s, s1, LowerItems(rest, s1));
          }
      }
  }

  lemma {:induction false} DefsSlots(r: Rules, defs: Defs, s: State)
    requires Based(r, s) && DefsTyped(r.fs, r.params, defs) && Numbered(s.blocks, s.next)
    requires DefsAllocs(!OpenAt(s), defs) <= r.made
    ensures Holds(r, DefsKept(r.made, !OpenAt(s), defs), DefsAllocs(!OpenAt(s), defs), s, LowerDefs(defs, s))
    decreases defs, 1
  {
    hide Holds, Based, AppendTo, OpenAt, Numbered, ExpKept, Follows;
    HoldsSelf(r, s);
    BasedMeans(r, s);
    match defs
    case NoDefs =>
    case Defs(VarDef(x, init), rest) =>
      var closed, slot := !OpenAt(s), Of(Var.Local(x));
      var xs: set<nat> := if closed then {} else {x};
      var s1 := Append(s, Alloc(slot));
      VarAlloc(r, s, x);
      DefsAppend(r, s, Alloc(slot));
      HoldsMeans(r, true, xs, s, s1);
      if init.None? {
        DefsSlots(r, rest, s1);
        HoldsThrough(r, true, DefsKept(r.made, closed, rest), xs, DefsAllocs(closed, rest), s, s1, LowerDefs(rest, s1));
      } else {
        var closed1 := closed && !HasLogic(init.value);
        var s3 := Append(LowerExp(init.value, s1).0, Inst.Store(LowerExp(init.value, s1).1, slot));
        InitSlots(r, x, init.value, s1);
        HoldsMeans(r, ExpKept(r.made, closed, init.value), {}, s1, s3);
        HoldsOn(r, true, ExpKept(r.made, closed, init.value), xs, s, s1, s3);
        DefsSlots(r, rest, s3);
        HoldsThrough(r, ExpKept(r.made, closed, init.value), DefsKept(r.made, closed1, rest), xs,
                     DefsAllocs(closed1, rest),
                     s, s3, LowerDefs(rest, s3));
      }
  }

  /** The initialiser of a variable that has an `alloc` if the block is open. */
  lemma InitSlots(r: Rules, x: nat, e: Exp, s: State)
    requires Based(r, s) && ExpTyped(r.fs, e) && Numbered(s.blocks, s.next) && (OpenAt(s) ==> x in r.made)
    ensures var (s1, op) := LowerExp(e, s);
            var t := Append(s1, Inst.Store(op, Of(Var.Local(x))));
            Holds(r, ExpKept(r.made, !OpenAt(s), e), {}, s, t) && Based(r, t)
              && (OpenAt(t) <==> OpenAt(s) || HasLogic(e))
  {
    hide Holds, OpenAt, AppendTo, Numbered, Based, Follows, DefsAt;
    var (s1, op) := LowerExp(e, s);
    AssignSlots(r, Var.Local(x), e, s);
    ExpFollows(r, e, s);
    FollowsMeans(r, HasLogic(e), s, s1);
    DefsAppend(r, s1, Inst.Store(op, Of(Var.Local(x))));
  }
}
