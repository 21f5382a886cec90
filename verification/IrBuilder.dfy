/**
 * The lowering as the program does it: one set of state variables that the walk over the tree updates in
 * place. Each step is what the functions of module Lowering say.
 */
module IrBuilder {
  import opened Words
  import opened Source
  import opened Koopa
  import opened Lowering

  lemma NewBlocksOneByOne(s: State)
    ensures NewBlocks(NewBlocks(s, 1), 1) == NewBlocks(s, 2)
    ensures NewBlocks(NewBlocks(NewBlocks(s, 1), 1), 1) == NewBlocks(s, 3)
  {
    assert s.blocks + seq(1, _ => []) + seq(1, _ => []) == s.blocks + seq(2, _ => []);
    assert s.blocks + seq(1, _ => []) + seq(1, _ => []) + seq(1, _ => []) == s.blocks + seq(3, _ => []);
  }

  lemma OneMore(done: seq<Operand>, op: Operand, ops: seq<Operand>)
    ensures done + ([op] + ops) == (done + [op]) + ops
  {
  }

  class IrBuilder {
    var next: nat                          // values made so far
    var blocks: seq<seq<Inst>>
    var bbs: seq<nat>                      // m_curr_function->bbs
    var current: nat                       // m_curr_basic_block
    var cond: nat                          // m_curr_cond
    var end: nat                           // m_curr_end
    var returned: bool                     // m_returned
    var call: Option<nat>                  // m_curr_call
    var args: map<nat, seq<Operand>>       // the arguments of every call made so far

    ghost function Abs(): State
      reads this
    {
      State(next, blocks, bbs, current, cond, end, returned)
    }

    /** The calls being built are all older than the values still to be made. */
    ghost predicate Valid()
      reads this
    {
      (call.Some? ==> call.value in args) && forall c :: c in args ==> c < next
    }

    /** Calls that were being built when a step began are as they were. */
    twostate predicate KeepsCalls()
      reads this
    {
      call == old(call) && old(next) <= next && forall c :: c in old(args) ==> c in args && args[c] == old(args)[c]
    }

    constructor ()
      ensures Valid() && Abs() == State(0, [], [], 0, 0, 0, false) && call == None && args == map[]
    {
      next, blocks, bbs, current, cond, end, returned, call, args := 0, [], [], 0, 0, 0, false, None, map[];
    }

    /** koopa_raw_basic_block */
    method NewBlock() returns (b: nat)
      requires Valid()
      modifies this`blocks
      ensures Valid() && b == |old(blocks)| && |blocks| == b + 1 && Abs() == NewBlocks(old(Abs()), 1)
    {
      b := |blocks|;
      blocks := blocks + [[]];
      assert old(blocks) + [[]] == old(blocks) + seq(1, _ => []);
    }

    /** A fresh value */
    method NewValue() returns (id: nat)
      requires Valid()
      modifies this`next
      ensures Valid() && id == old(next) && Abs() == NewId(old(Abs()))
    {
      id := next;
      next := next + 1;
    }

    /** try_append */
    method TryAppend(b: nat, i: Inst)
      requires Valid()
      modifies this`blocks
      ensures Valid() && Abs() == AppendTo(old(Abs()), b, i)
    {
      if b < |blocks| {
        var insts := blocks[b];
        if insts != [] && Terminator(insts[|insts| - 1]) {
          return;
        }
        blocks := blocks[b := insts + [i]];
      }
    }

    /** slice_append(&m_curr_function->bbs, b), and the cursor follows */
    method EnterBlock(b: nat)
      requires Valid()
      modifies this`bbs, this`current
      ensures Valid() && Abs() == Enter(old(Abs()), b)
    {
      bbs := bbs + [b];
      current := b;
    }

    method Emit(op: BinOp, l: Operand, r: Operand) returns (id: nat)
      requires Valid()
      modifies this`next, this`blocks
      ensures Valid() && id == old(next) && next == id + 1 && KeepsCalls()
      ensures Abs() == Lowering.Emit(old(Abs()), Inst.Binary(id, op, l, r))
    {
      id := NewValue();
      TryAppend(current, Inst.Binary(id, op, l, r));
    }

    // ----- expressions -----

    /** Exp, UnaryExp, PrimaryExp and LVal */
    method Exp(e: Source.Exp) returns (op: Operand)
      requires Valid()
      modifies this
      ensures Valid() && KeepsCalls() && (Abs(), op) == LowerExp(e, old(Abs()))
      decreases e, 1
    {
      hide AppendTo;
      match e
      case Num(n) => op := Imm(n);
      case LVal(Constant(n)) => op := Imm(n);
      case LVal(Variable(v)) =>
        var id := NewValue();
        TryAppend(current, Load(id, Of(v)));
        op := Res(id);
      case Call(_, _) => op := CallExp(e);
      case Plus(e0) => op := Exp(e0);
      case Neg(e0) =>
        var r := Exp(e0);
        var id := Emit(Sub, Imm(0), r);
        op := Res(id);
      case Not(e0) =>
        var r := Exp(e0);
        var id := Emit(BinOp.Eq, Imm(0), r);
        op := Res(id);
      case Binary(bop, l, r) =>
        var a := Exp(l);
        var b := Exp(r);
        var id := Emit(bop, a, b);
        op := Res(id);
      case Logic(_, _, _) => op := LogicExp(e);
    }

    /** A call: it is made first, its arguments are attached to it, and it is appended last. */
    method CallExp(e: Source.Exp) returns (op: Operand)
      requires Valid() && e.Call?
      modifies this
      ensures Valid() && KeepsCalls() && (Abs(), op) == LowerExp(e, old(Abs()))
      decreases e, 0
    {
      hide AppendTo;
      ghost var s := Abs();
      var thisCall := call;
      var id := NewValue();
      args := args[id := []];
      call := Some(id);
      RParams(e.args);
      call := thisCall;
      ghost var ops := LowerArgs(e.args, NewId(s)).1;
      assert [] + ops == ops;
      TryAppend(current, Inst.Call(id, e.f, args[id]));
      op := Res(id);
    }

    /** FuncRParamList: every argument goes to the call that is current, whatever calls it holds itself */
    method RParams(es: Exps)
      requires Valid() && call.Some?
      modifies this
      ensures Valid() && call == old(call) && old(next) <= next
      ensures forall c :: c in old(args) && Some(c) != call ==> c in args && args[c] == old(args)[c]
      ensures call.value in old(args)
      ensures var (s, ops) := LowerArgs(es, old(Abs())); Abs() == s && args[call.value] == old(args)[call.value] + ops
      decreases es, 2
    {
      hide LowerExp;
      var rest := es;
      var c := call.value;
      ghost var was, before := Abs(), args;
      ghost var done: seq<Operand> := [];
      assert [] + LowerArgs(es, was).1 == LowerArgs(es, was).1;
      while rest.Exps?
        invariant Valid() && call == Some(c) && call == old(call) && old(next) <= next
        invariant forall d :: d in before && d != c ==> d in args && args[d] == before[d]
        invariant args[c] == before[c] + done
        invariant var (s, ops) := LowerArgs(rest, Abs()); LowerArgs(es, was) == (s, done + ops)
        invariant rest == es || rest < es
        decreases rest
      {
        ghost var now := Abs();
        var op := Exp(rest.head);
        args := args[c := args[c] + [op]];
        done := done + [op];
        ghost var ops := LowerArgs(rest.tail, Abs()).1;
        assert LowerArgs(rest, now) == (LowerArgs(rest.tail, Abs()).0, [op] + ops);
        OneMore(done[..|done| - 1], op, ops);
        rest := rest.tail;
      }
      assert done + [] == done;
    }

    /** `||` and `&&`: the right side is lowered into a block of its own, entered if the left side does not
        decide, and the result lives in a slot of its own. */
    method LogicExp(e: Source.Exp) returns (op: Operand)
      requires Valid() && e.Logic?
      modifies this
      ensures Valid() && KeepsCalls() && (Abs(), op) == LowerExp(e, old(Abs()))
      decreases e, 0
    {
      hide AppendTo, LogicStart, LogicTurn, LogicJoin;
      var rhs, tmp := OpenLogic(e.lop);
      var l := Exp(e.l);
      TestLogic(e.lop, l, rhs);
      var r := Exp(e.r);
      CloseLogic(r, rhs, tmp);
      var id := NewValue();
      TryAppend(current, Load(id, Temp(tmp)));
      op := Res(id);
    }

    method OpenLogic(op: LogicOp) returns (rhs: nat, tmp: nat)
      requires Valid()
      modifies this`next, this`blocks, this`bbs
      ensures Valid() && Abs() == LogicStart(op, old(Abs())) && rhs == |old(blocks)| && tmp == old(next) && tmp < next
    {
      hide AppendTo, NewBlocks;
      ghost var s := Abs();
      rhs := NewBlock();
      var join := NewBlock();
      NewBlocksOneByOne(s);
      bbs := bbs + [rhs];
      bbs := bbs + [join];
      assert s.bbs + [rhs] + [join] == s.bbs + [rhs, rhs + 1];
      tmp := NewValue();
      TryAppend(current, Alloc(Temp(tmp)));
      TryAppend(current, Inst.Store(Imm(if op.Lor? then 1 else 0), Temp(tmp)));
    }

    method TestLogic(op: LogicOp, l: Operand, rhs: nat)
      requires Valid()
      modifies this`next, this`blocks, this`current
      ensures Valid() && Abs() == LogicTurn(op, l, rhs, old(Abs())) && old(next) < next
    {
      hide AppendTo;
      var test := Emit(if op.Lor? then BinOp.Eq else BinOp.Ne, l, Imm(0));
      TryAppend(current, Branch(Res(test), rhs, rhs + 1));
      current := rhs;
    }

    method CloseLogic(r: Operand, rhs: nat, tmp: nat)
      requires Valid()
      modifies this`next, this`blocks, this`current
      ensures Valid() && Abs() == LogicJoin(r, rhs, tmp, old(Abs())) && old(next) < next
    {
      hide AppendTo;
      var truth := Emit(Ne, r, Imm(0));
      TryAppend(current, Inst.Store(Res(truth), Temp(tmp)));
      TryAppend(current, Jump(rhs + 1));
      current := rhs + 1;
    }

    // ----- statements -----

    method Stmt(st: Source.Stmt)
      requires Valid()
      modifies this
      ensures Valid() && KeepsCalls() && Abs() == LowerStmt(st, old(Abs()))
      decreases st, 1
    {
      match st
      case Empty =>
      case Assign(v, e) =>
        var op := Exp(e);
        TryAppend(current, Inst.Store(op, Of(v)));
      case Eval(e) => var _ := Exp(e);
      case Block(items) => BlockItemList(items);
      case Return(None) =>
        TryAppend(current, Inst.Return(None));
        returned := true;
      case Return(Some(e)) =>
        var op := Exp(e);
        TryAppend(current, Inst.Return(Some(op)));
        returned := true;
      case If(_, _, _) => IfStmt(st);
      case While(_, _) => WhileStmt(st);
      case Break => LeaveLoop(end);
      case Continue => LeaveLoop(cond);
    }

    method LeaveLoop(target: nat)
      requires Valid()
      modifies this`blocks, this`bbs, this`current
      ensures Valid() && KeepsCalls() && Abs() == Leave(old(Abs()), target)
    {
      var b := NewBlock();
      bbs := bbs + [b];
      TryAppend(current, Jump(target));
      current := b;
    }

    method IfStmt(st: Source.Stmt)
      requires Valid() && st.If?
      modifies this
      ensures Valid() && KeepsCalls() && Abs() == LowerStmt(st, old(Abs()))
      decreases st, 0
    {
      hide AppendTo, IfStart, IfElse, IfEnd;
      var c := Exp(st.cond);
      var thenBlock := OpenIf(c);
      Stmt(st.thn);
      TurnIf(thenBlock);
      if st.els.Some? {
        Stmt(st.els.value);
        returned := false;
        TryAppend(current, Jump(thenBlock + 2));
      }
      CloseIf(thenBlock);
    }

    method OpenIf(c: Operand) returns (thenBlock: nat)
      requires Valid()
      modifies this`blocks, this`bbs, this`current
      ensures Valid() && Abs() == IfStart(c, old(Abs())) && thenBlock == |old(blocks)|
    {
      hide AppendTo, NewBlocks;
      ghost var s := Abs();
      thenBlock := NewBlock();
      var elseBlock := NewBlock();
      var _ := NewBlock();
      NewBlocksOneByOne(s);
      TryAppend(current, Branch(c, thenBlock, elseBlock));
      EnterBlock(thenBlock);
    }

    method TurnIf(thenBlock: nat)
      requires Valid()
      modifies this`returned, this`blocks, this`bbs, this`current
      ensures Valid() && Abs() == IfElse(thenBlock, old(Abs()))
    {
      hide AppendTo;
      returned := false;
      TryAppend(current, Jump(thenBlock + 2));
      TryAppend(thenBlock, Jump(thenBlock + 2));
      EnterBlock(thenBlock + 1);
    }

    method CloseIf(thenBlock: nat)
      requires Valid()
      modifies this`blocks, this`bbs, this`current
      ensures Valid() && Abs() == IfEnd(thenBlock, old(Abs()))
    {
      hide AppendTo;
      TryAppend(thenBlock + 1, Jump(thenBlock + 2));
      EnterBlock(thenBlock + 2);
    }

    method WhileStmt(st: Source.Stmt)
      requires Valid() && st.While?
      modifies this
      ensures Valid() && KeepsCalls() && Abs() == LowerStmt(st, old(Abs()))
      decreases st, 0
    {
      hide AppendTo, NewBlocks, WhileStart, WhileBody;
      var thisCond, thisEnd := cond, end;
      ghost var s := Abs();
      var condBlock := OpenWhile();
      var c := Exp(st.cond);
      TestWhile(condBlock, c);
      Stmt(st.body);
      returned := false;
      cond := thisCond;
      end := thisEnd;
      TryAppend(current, Jump(condBlock));
      EnterBlock(condBlock + 2);
    }

    method OpenWhile() returns (condBlock: nat)
      requires Valid()
      modifies this`blocks, this`bbs, this`current
      ensures Valid() && Abs() == WhileStart(old(Abs())) && condBlock == |old(blocks)|
    {
      hide AppendTo, NewBlocks;
      ghost var s := Abs();
      condBlock := NewBlock();
      var _ := NewBlock();
      var _ := NewBlock();
      NewBlocksOneByOne(s);
      TryAppend(current, Jump(condBlock));
      EnterBlock(condBlock);
    }

    method TestWhile(condBlock: nat, c: Operand)
      requires Valid()
      modifies this`blocks, this`bbs, this`current, this`cond, this`end
      ensures Valid() && Abs() == WhileBody(condBlock, c, old(Abs()))
    {
      hide AppendTo;
      TryAppend(current, Branch(c, condBlock + 1, condBlock + 2));
      EnterBlock(condBlock + 1);
      cond := condBlock;
      end := condBlock + 2;
    }

    /** BlockItemList: stops at the first `return` and forgets it */
    method BlockItemList(items: Items)
      requires Valid()
      modifies this
      ensures Valid() && KeepsCalls() && Abs() == LowerItems(items, old(Abs())).(returned := false)
      decreases items, 0
    {
      var rest := items;
      ghost var was := Abs();
      while rest.Items? && !returned
        invariant Valid() && KeepsCalls() && LowerItems(items, was) == LowerItems(rest, Abs())
        invariant rest == items || rest < items
        decreases rest
      {
        match rest.head {
          case ConstDecl =>
          case VarDecl(defs) => VarDefList(defs);
          case Stm(st) => Stmt(st);
        }
        rest := rest.tail;
      }
      returned := false;
    }

    /** VarDefList and VarDef of a local declaration */
    method VarDefList(defs: Defs)
      requires Valid()
      modifies this
      ensures Valid() && KeepsCalls() && Abs() == LowerDefs(defs, old(Abs()))
      decreases defs, 0
    {
      var rest := defs;
      ghost var was := Abs();
      while rest.Defs?
        invariant Valid() && KeepsCalls() && LowerDefs(defs, was) == LowerDefs(rest, Abs())
        invariant rest == defs || rest < defs
        decreases rest
      {
        var d := rest.head;
        TryAppend(current, Alloc(Of(Local(d.x))));
        if d.init.Some? {
          var op := Exp(d.init.value);
          TryAppend(current, Inst.Store(op, Of(Local(d.x))));
        }
        rest := rest.tail;
      }
    }

    // ----- functions -----

    /** FuncDef and FuncFParamList */
    method FuncDef(fd: Source.FuncDef) returns (f: Func)
      requires Valid() && Abs() == State(0, [], [], 0, 0, 0, false)
      modifies this
      ensures Valid() && f == LowerFunc(fd)
    {
      var entry := NewBlock();
      EnterBlock(entry);
      assert blocks == [[]] && bbs == [0] && fd.params[..0] == [];
      var i := 0;
      while i < |fd.params|
        invariant 0 <= i <= |fd.params| && Valid()
        invariant Abs() == FuncStart(fd.params[..i])
      {
        // slice_append, not try_append
        var slot := Of(Local(fd.params[i]));
        ghost var insts := blocks[current];
        blocks := blocks[current := blocks[current] + [Alloc(slot)]];
        blocks := blocks[current := blocks[current] + [Inst.Store(ArgRef(i), slot)]];
        i := i + 1;
        assert fd.params[..i][..i - 1] == fd.params[..i - 1];
        assert insts + [Alloc(slot)] + [Inst.Store(ArgRef(i - 1), slot)]
            == insts + [Alloc(slot), Inst.Store(ArgRef(i - 1), slot)];
      }
      assert fd.params[..i] == fd.params;
      BlockItemList(fd.body);
      ghost var s := Abs();
      if fd.isVoid && current < |blocks| {
        var last := blocks[current];
        if last == [] || !last[|last| - 1].Return? {
          blocks := blocks[current := last + [Inst.Return(None)]];
        }
      }
      assert Abs() == FuncEnd(fd.isVoid, s);
      f := Func(fd.isVoid, |fd.params|, bbs, blocks);
    }
  }
}
