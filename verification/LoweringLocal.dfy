/**
 * Local code, and the source conditions under which lowering builds it: every operand is defined in the block
 * that uses it, after the block's last void call, and every slot used is allocated.
 */
module LoweringLocal {
  import opened Words
  import opened Source
  import opened Koopa
  import opened Lowering
  import Programs

  // ----- local code -----

  /** The values a block may use after an instruction. */
  function DefAfter(d: set<nat>, i: Inst): set<nat>
  {
    match i
    case Load(id, _) => d + {id}
    case Binary(id, _, _, _) => d + {id}
    case Call(id, f, _) => if f.isVoid then {} else d + {id}
    case _ => d
  }

  function DefsOf(insts: seq<Inst>): set<nat>
  {
    if insts == [] then {} else DefAfter(DefsOf(insts[..|insts| - 1]), insts[|insts| - 1])
  }

  predicate OperandIn(d: set<nat>, op: Operand) { op.Imm? || (op.Res? && op.id in d) }

  predicate InstLocal(d: set<nat>, i: Inst)
  {
    match i
    case Store(op, _) => OperandIn(d, op)
    case Binary(_, _, l, r) => OperandIn(d, l) && OperandIn(d, r)
    case Call(_, _, args) => forall x :: x in args ==> OperandIn(d, x)
    case Branch(cond, _, _) => OperandIn(d, cond)
    case Return(op) => op.Some? ==> OperandIn(d, op.value)
    case _ => true
  }

  /** Every operand is a value of this very block. */
  predicate UsesOwn(insts: seq<Inst>)
  {
    insts != [] ==> UsesOwn(insts[..|insts| - 1]) && InstLocal(DefsOf(insts[..|insts| - 1]), insts[|insts| - 1])
  }

  // ----- logical operators -----

  /** Operators that leave the block: evaluating e moves the cursor. */
  predicate HasLogic(e: Exp)
  {
    match e
    case Call(_, args) => ArgsHaveLogic(args)
    case Plus(e0) => HasLogic(e0)
    case Neg(e0) => HasLogic(e0)
    case Not(e0) => HasLogic(e0)
    case Binary(_, l, r) => HasLogic(l) || HasLogic(r)
    case Logic(_, _, _) => true
    case _ => false
  }

  predicate ArgsHaveLogic(es: Exps) { es.Exps? && (HasLogic(es.head) || ArgsHaveLogic(es.tail)) }

  /** An operand that is an immediate in the IR. */
  predicate ConstantOperand(e: Exp)
  {
    match e
    case Num(_) => true
    case LVal(sym) => sym.Constant?
    case Plus(e0) => ConstantOperand(e0)
    case _ => false
  }

  /** No `&&` or `||` in an operand or argument evaluated after a non-constant sibling. */
  predicate LogicFirst(e: Exp)
  {
    match e
    case Call(_, args) => ArgsLogicFirst(args)
    case Plus(e0) => LogicFirst(e0)
    case Neg(e0) => LogicFirst(e0)
    case Not(e0) => LogicFirst(e0)
    case Binary(_, l, r) => LogicFirst(l) && LogicFirst(r) && (HasLogic(r) ==> ConstantOperand(l))
    case Logic(_, l, r) => LogicFirst(l) && LogicFirst(r)
    case _ => true
  }

  predicate ArgsLogicFirst(es: Exps)
  {
    es.Exps? ==>
      LogicFirst(es.head) && ArgsLogicFirst(es.tail) && (ArgsHaveLogic(es.tail) ==> ConstantOperand(es.head))
  }

  /** The same of every expression lowering comes to: what follows a `return` in its block is skipped. */
  predicate StmtLogicFirst(st: Stmt)
  {
    match st
    case Assign(_, e) => LogicFirst(e)
    case Eval(e) => LogicFirst(e)
    case Block(items) => ItemsLogicFirst(items)
    case Return(ret) => ret.Some? ==> LogicFirst(ret.value)
    case If(c, t, f) => LogicFirst(c) && StmtLogicFirst(t) && (f.Some? ==> StmtLogicFirst(f.value))
    case While(c, body) => LogicFirst(c) && StmtLogicFirst(body)
    case _ => true
  }

  predicate ItemsLogicFirst(items: Items)
  {
    match items
    case NoItems => true
    case Items(ConstDecl, rest) => ItemsLogicFirst(rest)
    case Items(VarDecl(defs), rest) => DefsLogicFirst(defs) && ItemsLogicFirst(rest)
    case Items(Stm(st), rest) => StmtLogicFirst(st) && (st.Return? || ItemsLogicFirst(rest))
  }

  predicate DefsLogicFirst(defs: Defs)
  {
    defs.Defs? ==> (defs.head.init.Some? ==> LogicFirst(defs.head.init.value)) && DefsLogicFirst(defs.tail)
  }

  // ----- types -----

  type Funcs = seq<(nat, FuncDef)>

  predicate CalleeOk(fs: Funcs, callee: Callee)
  {
    var fd := Programs.Find(fs, callee.f);
    fd.Some? ==> callee.isVoid == fd.value.isVoid
  }

  /** Every operand is an int, and calls agree with the functions they name. */
  predicate ExpTyped(fs: Funcs, e: Exp)
  {
    match e
    case Call(f, args) => !f.isVoid && CalleeOk(fs, f) && ArgsTyped(fs, args)
    case Plus(e0) => ExpTyped(fs, e0)
    case Neg(e0) => ExpTyped(fs, e0)
    case Not(e0) => ExpTyped(fs, e0)
    case Binary(_, l, r) => ExpTyped(fs, l) && ExpTyped(fs, r)
    case Logic(_, l, r) => ExpTyped(fs, l) && ExpTyped(fs, r)
    case _ => true
  }

  predicate ArgsTyped(fs: Funcs, es: Exps)
  {
    es.Exps? ==> ExpTyped(fs, es.head) && ArgsTyped(fs, es.tail)
  }

  /** An expression statement may also call a void function. */
  predicate EvalTyped(fs: Funcs, e: Exp)
  {
    ExpTyped(fs, e) || (e.Call? && CalleeOk(fs, e.f) && ArgsTyped(fs, e.args))
  }

  predicate StmtTyped(fs: Funcs, params: set<nat>, st: Stmt)
    decreases st
  {
    match st
    case Assign(_, e) => ExpTyped(fs, e)
    case Eval(e) => EvalTyped(fs, e)
    case Block(items) => ItemsTyped(fs, params, items)
    case Return(ret) => ret.Some? ==> ExpTyped(fs, ret.value)
    case If(c, t, f) =>
      ExpTyped(fs, c) && StmtTyped(fs, params, t) && (f.Some? ==> StmtTyped(fs, params, f.value))
    case While(c, body) => ExpTyped(fs, c) && StmtTyped(fs, params, body)
    case _ => true
  }

  predicate ItemsTyped(fs: Funcs, params: set<nat>, items: Items)
    decreases items
  {
    match items
    case NoItems => true
    case Items(ConstDecl, rest) => ItemsTyped(fs, params, rest)
    case Items(VarDecl(defs), rest) => DefsTyped(fs, params, defs) && ItemsTyped(fs, params, rest)
    case Items(Stm(st), rest) => StmtTyped(fs, params, st) && ItemsTyped(fs, params, rest)
  }

  /** No declaration takes a parameter's identity. */
  predicate DefsTyped(fs: Funcs, params: set<nat>, defs: Defs)
    decreases defs
  {
    match defs
    case NoDefs => true
    case Defs(VarDef(x, init), rest) =>
      x !in params && (init.Some? ==> ExpTyped(fs, init.value)) && DefsTyped(fs, params, rest)
  }

  // ----- dead code -----

  /** Whether the cursor's block is closed after a statement, given whether it was before: a `return` closes it,
      and whatever brings a new block opens it. */
  predicate StmtCloses(closed: bool, st: Stmt)
    decreases st
  {
    match st
    case Empty => closed
    case Assign(_, e) => closed && !HasLogic(e)
    case Eval(e) => closed && !HasLogic(e)
    case Block(items) => ItemsClose(closed, items)
    case Return(_) => true
    case _ => false
  }

  predicate ItemsClose(closed: bool, items: Items)
    decreases items
  {
    match items
    case NoItems => closed
    case Items(ConstDecl, rest) => ItemsClose(closed, rest)
    case Items(VarDecl(defs), rest) => ItemsClose(DefsClose(closed, defs), rest)
    case Items(Stm(st), rest) => if st.Return? then true else ItemsClose(StmtCloses(closed, st), rest)
  }

  predicate DefsClose(closed: bool, defs: Defs)
    decreases defs
  {
    if defs.NoDefs? then closed
    else DefsClose(closed && !InitHasLogic(defs.head.init), defs.tail)
  }

  predicate InitHasLogic(init: Option<Exp>) { init.Some? && HasLogic(init.value) }

  /** The variables that get an `alloc`: those declared while the block is open. */
  function StmtAllocs(closed: bool, st: Stmt): set<nat>
    decreases st
  {
    match st
    case Block(items) => ItemsAllocs(closed, items)
    case If(_, t, f) => StmtAllocs(false, t) + if f.Some? then StmtAllocs(false, f.value) else {}
    case While(_, body) => StmtAllocs(false, body)
    case _ => {}
  }

  function ItemsAllocs(closed: bool, items: Items): set<nat>
    decreases items
  {
    match items
    case NoItems => {}
    case Items(ConstDecl, rest) => ItemsAllocs(closed, rest)
    case Items(VarDecl(defs), rest) => DefsAllocs(closed, defs) + ItemsAllocs(DefsClose(closed, defs), rest)
    case Items(Stm(st), rest) =>
      StmtAllocs(closed, st) + if st.Return? then {} else ItemsAllocs(StmtCloses(closed, st), rest)
  }

  function DefsAllocs(closed: bool, defs: Defs): set<nat>
    decreases defs
  {
    if defs.NoDefs? then {}
    else
      (if closed then {} else {defs.head.x}) + DefsAllocs(closed && !InitHasLogic(defs.head.init), defs.tail)
  }

  /** Every variable the expression reads is one of these. */
  predicate ExpReads(made: set<nat>, e: Exp)
  {
    match e
    case LVal(Variable(Local(x))) => x in made
    case Call(_, args) => ArgsRead(made, args)
    case Plus(e0) => ExpReads(made, e0)
    case Neg(e0) => ExpReads(made, e0)
    case Not(e0) => ExpReads(made, e0)
    case Binary(_, l, r) => ExpReads(made, l) && ExpReads(made, r)
    case Logic(_, l, r) => ExpReads(made, l) && ExpReads(made, r)
    case _ => true
  }

  predicate ArgsRead(made: set<nat>, es: Exps) { es.Exps? ==> ExpReads(made, es.head) && ArgsRead(made, es.tail) }

  /** In an open block an expression reads variables that have an `alloc`; in a closed one it makes no temporary,
      whose `alloc` would be dropped. */
  predicate ExpKept(made: set<nat>, closed: bool, e: Exp)
  {
    if closed then !HasLogic(e) else ExpReads(made, e)
  }

  predicate StmtKept(made: set<nat>, closed: bool, st: Stmt)
    decreases st
  {
    match st
    case Assign(v, e) => ExpKept(made, closed, e) && (!closed && v.Local? ==> v.x in made)
    case Eval(e) => ExpKept(made, closed, e)
    case Block(items) => ItemsKept(made, closed, items)
    case Return(ret) => ret.Some? ==> ExpKept(made, closed, ret.value)
    case If(c, t, f) =>
      ExpKept(made, closed, c) && StmtKept(made, false, t) && (f.Some? ==> StmtKept(made, false, f.value))
    case While(c, body) => ExpKept(made, false, c) && StmtKept(made, false, body)
    case _ => true
  }

  /** No slot is used whose `alloc` was dropped after a `return`. */
  predicate ItemsKept(made: set<nat>, closed: bool, items: Items)
    decreases items
  {
    match items
    case NoItems => true
    case Items(ConstDecl, rest) => ItemsKept(made, closed, rest)
    case Items(VarDecl(defs), rest) => DefsKept(made, closed, defs) && ItemsKept(made, DefsClose(closed, defs), rest)
    case Items(Stm(st), rest) =>
      StmtKept(made, closed, st) && (st.Return? || ItemsKept(made, StmtCloses(closed, st), rest))
  }

  predicate DefsKept(made: set<nat>, closed: bool, defs: Defs)
    decreases defs
  {
    defs.Defs? ==>
      && (defs.head.init.Some? ==> ExpKept(made, closed, defs.head.init.value))
      && DefsKept(made, closed && !InitHasLogic(defs.head.init), defs.tail)
  }

  // ----- functions -----

  function ParamSet(fd: FuncDef): set<nat> { set x | x in fd.params }

  /** What any function the compiler accepts has. */
  predicate FuncTyped(fs: Funcs, fd: FuncDef)
  {
    && (forall i, j :: 0 <= i < j < |fd.params| ==> fd.params[i] != fd.params[j])
    && ItemsWellNested(fd.body, false) && ItemsTyped(fs, ParamSet(fd), fd.body)
  }

  /** The parameters and the variables of the body that get an `alloc`. */
  function FuncMade(fd: FuncDef): set<nat>
  {
    ParamSet(fd) + ItemsAllocs(false, fd.body)
  }

  /** The condition for local code. */
  predicate FuncDefOk(fs: Funcs, fd: FuncDef)
  {
    FuncTyped(fs, fd) && ItemsLogicFirst(fd.body) && ItemsKept(FuncMade(fd), false, fd.body)
  }

  // ----- what is required of the code -----

  /** What the checks on the emitted code are relative to: the program's functions, the parameters, the variables
      that have an `alloc`, and how many instructions at the start of the entry block are the parameters' own. */
  datatype Rules = Rules(fs: Funcs, params: set<nat>, made: set<nat>, skip: nat)

  function RulesOf(fs: Funcs, fd: FuncDef): Rules
  {
    Rules(fs, ParamSet(fd), FuncMade(fd), 2 * |fd.params|)
  }

  function Tail(skip: nat, g: Graph, b: nat): seq<Inst>
    requires b < |g|
  {
    if b == 0 && skip <= |g[0]| then g[0][skip..] else g[b]
  }

  ghost predicate AllocatedIn(g: Graph, slot: Slot) { exists b: nat :: b < |g| && Allocates(g[b], slot) }

  /** A slot the code generator can address: a global, or one allocated somewhere in the function. */
  ghost predicate Made(g: Graph, slot: Slot)
  {
    (slot.Of? && slot.v.Global?) || AllocatedIn(g, slot)
  }

  /** Allocs are of the function's own variables, and calls are what they say. */
  predicate Decent(r: Rules, i: Inst)
  {
    match i
    case Alloc(slot) => slot.Of? ==> slot.v.Local? && slot.v.x !in r.params
    case Call(_, f, _) => CalleeOk(r.fs, f)
    case _ => true
  }

  ghost predicate Fine(r: Rules, g: Graph, i: Inst)
  {
    match i
    case Load(_, src) => Made(g, src)
    case Store(_, dest) => Made(g, dest)
    case _ => Decent(r, i)
  }

  ghost predicate AllFine(r: Rules, g: Graph, insts: seq<Inst>)
  {
    forall i :: 0 <= i < |insts| ==> Fine(r, g, insts[i])
  }

  ghost predicate Clean(r: Rules, g: Graph)
  {
    && g != [] && r.skip <= |g[0]|
    && forall b :: 0 <= b < |g| ==> UsesOwn(Tail(r.skip, g, b)) && AllFine(r, g, Tail(r.skip, g, b))
  }

  // ----- the cursor's block -----

  predicate OpenAt(s: State) { s.cur < |s.blocks| && !Terminated(s.blocks[s.cur]) }

  /** The values the cursor's block may use. */
  function DefsAt(r: Rules, s: State): set<nat>
  {
    if s.cur < |s.blocks| then DefsOf(Tail(r.skip, s.blocks, s.cur)) else {}
  }

  predicate Based(r: Rules, s: State) { s.cur < |s.blocks| && r.skip <= |s.blocks[0]| }
}
