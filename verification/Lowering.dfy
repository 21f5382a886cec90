/**
 * The lowering of src/ir.c as functions on the state it keeps: the blocks built so far, the block
 * the cursor stands on, the targets of `continue` and `break`, and the flag `m_returned`.
 */
module Lowering {
  import opened Words
  import opened Source
  import opened Koopa

  datatype State = State(
    next: nat,                        // the next unused value id
    blocks: seq<seq<Inst>>,           // every basic block built so far, by block id
    bbs: seq<nat>,                    // the blocks appended to the function, in order
    cur: nat,                         // m_curr_basic_block
    cond: nat,                        // m_curr_cond
    end: nat,                         // m_curr_end
    returned: bool                    // m_returned
  )

  function NewBlocks(s: State, n: nat): State
  {
    s.(blocks := s.blocks + seq(n, _ => []))
  }

  function NewId(s: State): State { s.(next := s.next + 1) }

  /** `slice_append(&m_curr_function->bbs, b)`, then moving the cursor there. */
  function Enter(s: State, b: nat): State
  {
    s.(bbs := s.bbs + [b], cur := b)
  }

  predicate Open(s: State, b: nat) { b < |s.blocks| && !Terminated(s.blocks[b]) }

  /** try_append: instructions after a terminator are dropped. */
  function AppendTo(s: State, b: nat, i: Inst): State
  {
    if Open(s, b) then s.(blocks := s.blocks[b := s.blocks[b] + [i]]) else s
  }

  function Append(s: State, i: Inst): State { AppendTo(s, s.cur, i) }

  /** Appends an instruction that takes the next value id. */
  function Emit(s: State, i: Inst): State { Append(NewId(s), i) }

  // ----- expressions -----

  /** `||` starts from 1 and evaluates its right side if the left is 0; `&&` the other way round. */
  function LogicInit(op: LogicOp): Word { if op.Lor? then 1 else 0 }

  function LogicTest(op: LogicOp): BinOp { if op.Lor? then BinOp.Eq else BinOp.Ne }

  function LogicStart(op: LogicOp, s: State): State
  {
    var rhs, tmp := |s.blocks|, Temp(s.next);
    var s1 := NewId(NewBlocks(s, 2)).(bbs := s.bbs + [rhs, rhs + 1]);
    Append(Append(s1, Alloc(tmp)), Inst.Store(Imm(LogicInit(op)), tmp))
  }

  function LogicTurn(op: LogicOp, l: Operand, rhs: nat, s: State): State
  {
    var s1 := Emit(s, Inst.Binary(s.next, LogicTest(op), l, Imm(0)));
    Append(s1, Branch(Res(s.next), rhs, rhs + 1)).(cur := rhs)
  }

  function LogicJoin(r: Operand, rhs: nat, tmp: nat, s: State): State
  {
    var s1 := Emit(s, Inst.Binary(s.next, Ne, r, Imm(0)));
    Append(Append(s1, Inst.Store(Res(s.next), Temp(tmp))), Jump(rhs + 1)).(cur := rhs + 1)
  }

  function LowerExp(e: Exp, s: State): (State, Operand)
  {
    match e
    case Num(n) => (s, Imm(n))
    case LVal(Constant(n)) => (s, Imm(n))
    case LVal(Variable(v)) => (Emit(s, Load(s.next, Of(v))), Res(s.next))
    case Call(f, args) =>
      var (s1, ops) := LowerArgs(args, NewId(s));
      (Append(s1, Inst.Call(s.next, f, ops)), Res(s.next))
    case Plus(e0) => LowerExp(e0, s)
    case Neg(e0) =>
      var (s1, r) := LowerExp(e0, s);
      (Emit(s1, Inst.Binary(s1.next, Sub, Imm(0), r)), Res(s1.next))
    case Not(e0) =>
      var (s1, r) := LowerExp(e0, s);
      (Emit(s1, Inst.Binary(s1.next, BinOp.Eq, Imm(0), r)), Res(s1.next))
    case Binary(op, l, r) =>
      var (s1, a) := LowerExp(l, s);
      var (s2, b) := LowerExp(r, s1);
      (Emit(s2, Inst.Binary(s2.next, op, a, b)), Res(s2.next))
    case Logic(op, l, r) =>
      var (s1, a) := LowerExp(l, LogicStart(op, s));
      var (s2, b) := LowerExp(r, LogicTurn(op, a, |s.blocks|, s1));
      var s3 := LogicJoin(b, |s.blocks|, s.next, s2);
      (Emit(s3, Load(s3.next, Temp(s.next))), Res(s3.next))
  }

  function LowerArgs(es: Exps, s: State): (State, seq<Operand>)
  {
    match es
    case NoExps => (s, [])
    case Exps(e, rest) =>
      var (s1, op) := LowerExp(e, s);
      var (s2, ops) := LowerArgs(rest, s1);
      (s2, [op] + ops)
  }

  // ----- statements -----

  /** The three blocks of an `if`, and the branch to the first two. */
  function IfStart(op: Operand, s: State): State
  {
    var t := |s.blocks|;
    Enter(Append(NewBlocks(s, 3), Branch(op, t, t + 1)), t)
  }

  /** After the `then` part: close the cursor's block and the `then` block itself. */
  function IfElse(t: nat, s: State): State
  {
    var s1 := Append(s.(returned := false), Jump(t + 2));
    Enter(AppendTo(s1, t, Jump(t + 2)), t + 1)
  }

  function IfEnd(t: nat, s: State): State
  {
    Enter(AppendTo(s, t + 1, Jump(t + 2)), t + 2)
  }

  function WhileStart(s: State): State
  {
    Enter(Append(NewBlocks(s, 3), Jump(|s.blocks|)), |s.blocks|)
  }

  function WhileBody(cond: nat, op: Operand, s: State): State
  {
    Enter(Append(s, Branch(op, cond + 1, cond + 2)), cond + 1).(cond := cond, end := cond + 2)
  }

  /** Back to the enclosing loop's targets. */
  function WhileEnd(outer: State, s: State): State
  {
    var s1 := s.(returned := false, cond := outer.cond, end := outer.end);
    Enter(Append(s1, Jump(|outer.blocks|)), |outer.blocks| + 2)
  }

  /** `break` and `continue`: a jump, and a fresh block for whatever follows. */
  function Leave(s: State, target: nat): State
  {
    var b := |s.blocks|;
    Append(NewBlocks(s, 1).(bbs := s.bbs + [b]), Jump(target)).(cur := b)
  }

  function LowerStmt(st: Stmt, s: State): State
  {
    match st
    case Empty => s
    case Assign(v, e) =>
      var (s1, op) := LowerExp(e, s);
      Append(s1, Inst.Store(op, Of(v)))
    case Eval(e) => LowerExp(e, s).0
    case Block(items) => LowerItems(items, s).(returned := false)
    case Return(None) => Append(s, Inst.Return(None)).(returned := true)
    case Return(Some(e)) =>
      var (s1, op) := LowerExp(e, s);
      Append(s1, Inst.Return(Some(op))).(returned := true)
    case If(c, t, f) =>
      var (s1, op) := LowerExp(c, s);
      var s2 := IfElse(|s1.blocks|, LowerStmt(t, IfStart(op, s1)));
      LowerElse(f, |s1.blocks|, s2)
    case While(c, body) =>
      var (s1, op) := LowerExp(c, WhileStart(s));
      WhileEnd(s, LowerStmt(body, WhileBody(|s.blocks|, op, s1)))
    case Break => Leave(s, s.end)
    case Continue => Leave(s, s.cond)
  }

  /** The rest of an `if` whose first block is t, with or without an `else` part. */
  function LowerElse(els: Option<Stmt>, t: nat, s: State): State
  {
    if els.None? then IfEnd(t, s)
    else IfEnd(t, Append(LowerStmt(els.value, s).(returned := false), Jump(t + 2)))
  }

  /** The items of a block up to the first `return` among them. */
  function LowerItems(items: Items, s: State): State
  {
    if items.NoItems? || s.returned then s else LowerItems(items.tail, LowerItem(items.head, s))
  }

  function LowerItem(item: Item, s: State): State
  {
    match item
    case ConstDecl => s
    case VarDecl(defs) => LowerDefs(defs, s)
    case Stm(st) => LowerStmt(st, s)
  }

  function LowerDefs(defs: Defs, s: State): State
  {
    match defs
    case NoDefs => s
    case Defs(VarDef(x, init), rest) =>
      var s1 := Append(s, Alloc(Of(Local(x))));
      if init.None? then LowerDefs(rest, s1)
      else
        var (s2, op) := LowerExp(init.value, s1);
        LowerDefs(rest, Append(s2, Inst.Store(op, Of(Local(x)))))
  }

  // ----- functions -----

  /** Each parameter gets a slot that its argument is stored to. */
  function ParamInsts(params: seq<nat>): seq<Inst>
  {
    if params == [] then []
    else
      var n := |params| - 1;
      ParamInsts(params[..n]) + [Alloc(Of(Local(params[n]))), Inst.Store(ArgRef(n), Of(Local(params[n])))]
  }

  function FuncStart(params: seq<nat>): State
  {
    State(0, [ParamInsts(params)], [0], 0, 0, 0, false)
  }

  /** A void function whose last block does not end in `return` gets one. */
  function FuncEnd(isVoid: bool, s: State): State
  {
    if s.cur >= |s.blocks| then s else
    var last := s.blocks[s.cur];
    if isVoid && !(last != [] && last[|last| - 1].Return?)
    then s.(blocks := s.blocks[s.cur := last + [Inst.Return(None)]])
    else s
  }

  function LowerBody(fd: FuncDef): State
  {
    FuncEnd(fd.isVoid, LowerItems(fd.body, FuncStart(fd.params)).(returned := false))
  }

  function LowerFunc(fd: FuncDef): Func
  {
    var s := LowerBody(fd);
    Func(fd.isVoid, |fd.params|, s.bbs, s.blocks)
  }
}
