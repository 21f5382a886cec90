/**
 * The source language after name resolution, and its meaning.
 *
 * The tree is the one `src/sysy.y` builds, with lists in source order and with every identifier
 * occurrence replaced by the symbol the symbol table answers for it (modules Names and NamesAgree say how
 * and which that is).
 */
module Source {
  import opened Words

  /** A variable of the program: globals and locals are numbered by their declarations. */
  datatype Var = Global(g: nat) | Local(x: nat)

  /** What an LVal resolves to (`symbol_tag_e` in src/symbols.h). */
  datatype Symbol = Constant(value: Word) | Variable(v: Var)

  /** A function symbol: its identity, and whether it returns a value. */
  datatype Callee = Callee(f: nat, isVoid: bool)

  datatype BinOp = Ne | Eq | Gt | Lt | Ge | Le | Add | Sub | Mul | Div | Mod

  datatype LogicOp = Lor | Land

  datatype Exp =
    | Num(n: Word)
    | LVal(sym: Symbol)
    | Call(f: Callee, args: Exps)
    | Plus(e: Exp)
    | Neg(e: Exp)
    | Not(e: Exp)
    | Binary(op: BinOp, l: Exp, r: Exp)
    | Logic(lop: LogicOp, l: Exp, r: Exp)

  datatype Exps = NoExps | Exps(head: Exp, tail: Exps)

  datatype Stmt =
    | Empty
    | Assign(v: Var, e: Exp)
    | Eval(e: Exp)
    | Block(items: Items)
    | Return(ret: Option<Exp>)
    | If(cond: Exp, thn: Stmt, els: Option<Stmt>)
    | While(cond: Exp, body: Stmt)
    | Break
    | Continue

  datatype VarDef = VarDef(x: nat, init: Option<Exp>)

  datatype Defs = NoDefs | Defs(head: VarDef, tail: Defs)

  datatype Item = ConstDecl | VarDecl(defs: Defs) | Stm(s: Stmt)

  datatype Items = NoItems | Items(head: Item, tail: Items)

  /** A function: `void` or `int`, its parameters (each an int variable) and its body. */
  datatype FuncDef = FuncDef(isVoid: bool, params: seq<nat>, body: Items)

  // ----- the machine the program talks to -----

  datatype Event = Event(f: nat, args: seq<Word>)

  /** What a callee can change: the global variables and the outside world, seen as the history of
      calls into the run-time library. */
  datatype World = World(globals: map<nat, Word>, io: seq<Event>)

  datatype CallResult = Returns(w: World, v: Word) | Fails | Hangs

  /** The meaning of calls while one function body runs: any function at all. */
  type Oracle = (World, Callee, seq<Word>) -> CallResult

  /** The run-time library: how many arguments each function takes, and its answer to a call given the
      history of calls before it. */
  datatype Library = Library(arity: nat -> nat, result: (seq<Event>, nat, seq<Word>) -> Word)

  datatype Store = Store(locals: map<nat, Word>, w: World)

  function Read(s: Store, v: Var): Option<Word>
  {
    match v
    case Global(g) => if g in s.w.globals then Some(s.w.globals[g]) else None
    case Local(x) => if x in s.locals then Some(s.locals[x]) else None
  }

  function Write(s: Store, v: Var, n: Word): Store
  {
    match v
    case Global(g) => s.(w := s.w.(globals := s.w.globals[g := n]))
    case Local(x) => s.(locals := s.locals[x := n])
  }

  // ----- expressions -----

  /** The value of an arithmetic or comparison operator; every one is total, as on RV32IM. */
  function Apply(op: BinOp, a: Word, b: Word): Word
  {
    match op
    case Ne => Bool(a != b)
    case Eq => Bool(a == b)
    case Gt => Bool(a > b)
    case Lt => Bool(a < b)
    case Ge => Bool(a >= b)
    case Le => Bool(a <= b)
    case Add => Wrap(a + b)
    case Sub => Wrap(a - b)
    case Mul => Wrap(a * b)
    case Div => Words.Div(a, b)
    case Mod => Words.Rem(a, b)
  }

  /** Wrong: an uninitialised local was read or a callee failed. Hung: a callee never returned. */
  datatype EvalResult = Value(v: Word, s: Store) | EvalWrong | EvalHung

  datatype ArgsResult = Values(vs: seq<Word>, s: Store) | ArgsWrong | ArgsHung

  /** Evaluation left to right; `||` and `&&` as sections 6.5.14 and 6.5.13 of ISO C11 define them. */
  function EvalExp(o: Oracle, e: Exp, s: Store): EvalResult
  {
    match e
    case Num(n) => Value(n, s)
    case LVal(Constant(n)) => Value(n, s)
    case LVal(Variable(v)) =>
      (match Read(s, v)
       case Some(n) => Value(n, s)
       case None => EvalWrong)
    case Call(f, args) =>
      (match EvalArgs(o, args, s)
       case Values(vs, s1) =>
         (match o(s1.w, f, vs)
          case Returns(w, v) => Value(v, s1.(w := w))
          case Fails => EvalWrong
          case Hangs => EvalHung)
       case ArgsWrong => EvalWrong
       case ArgsHung => EvalHung)
    case Plus(e0) => EvalExp(o, e0, s)
    case Neg(e0) =>
      var r := EvalExp(o, e0, s);
      if r.Value? then r.(v := Apply(Sub, 0, r.v)) else r
    case Not(e0) =>
      var r := EvalExp(o, e0, s);
      if r.Value? then r.(v := Bool(r.v == 0)) else r
    case Binary(op, l, r) =>
      var a := EvalExp(o, l, s);
      if !a.Value? then a else
      var b := EvalExp(o, r, a.s);
      if b.Value? then b.(v := Apply(op, a.v, b.v)) else b
    case Logic(op, l, r) =>
      var a := EvalExp(o, l, s);
      if !a.Value? then a else
      if op.Lor? && a.v != 0 then a.(v := 1) else
      if op.Land? && a.v == 0 then a.(v := 0) else
      var b := EvalExp(o, r, a.s);
      if b.Value? then b.(v := Bool(b.v != 0)) else b
  }

  function EvalArgs(o: Oracle, es: Exps, s: Store): ArgsResult
  {
    match es
    case NoExps => Values([], s)
    case Exps(e, rest) =>
      match EvalExp(o, e, s)
      case EvalWrong => ArgsWrong
      case EvalHung => ArgsHung
      case Value(v, s1) =>
        var r := EvalArgs(o, rest, s1);
        if r.Values? then r.(vs := [v] + r.vs) else r
  }

  // ----- statements -----

  /** How a statement ends. OutOfFuel also stands for a callee that never returns. */
  datatype Outcome =
    | Normal(s: Store)
    | Broke(s: Store)
    | Continued(s: Store)
    | Returned(v: Option<Word>, w: World)
    | Wrong
    | OutOfFuel

  function Failed(r: EvalResult): Outcome
  {
    if r.EvalHung? then OutOfFuel else Wrong
  }

  /** Statement execution; fuel bounds the number of loop iterations in a row
      (sections 6.8.5.1, 6.8.6.2 and 6.8.6.3 of ISO C11). */
  function Exec(o: Oracle, fuel: nat, st: Stmt, s: Store): Outcome
    decreases fuel, st, 0
  {
    match st
    case Empty => Normal(s)
    case Assign(v, e) =>
      var r := EvalExp(o, e, s);
      if r.Value? then Normal(Write(r.s, v, r.v)) else Failed(r)
    case Eval(e) =>
      var r := EvalExp(o, e, s);
      if r.Value? then Normal(r.s) else Failed(r)
    case Block(items) => ExecItems(o, fuel, items, s)
    case Return(None) => Returned(None, s.w)
    case Return(Some(e)) =>
      var r := EvalExp(o, e, s);
      if r.Value? then Returned(Some(r.v), r.s.w) else Failed(r)
    case If(c, t, f) =>
      var r := EvalExp(o, c, s);
      if !r.Value? then Failed(r)
      else if r.v != 0 then Exec(o, fuel, t, r.s)
      else if f.Some? then Exec(o, fuel, f.value, r.s)
      else Normal(r.s)
    case While(c, body) =>
      if fuel == 0 then OutOfFuel else
      var r := EvalExp(o, c, s);
      if !r.Value? then Failed(r)
      else if r.v == 0 then Normal(r.s)
      else Around(o, fuel - 1, st, Exec(o, fuel - 1, body, r.s))
    case Break => Broke(s)
    case Continue => Continued(s)
  }

  /** What a loop comes to once its body has ended in b. */
  function Around(o: Oracle, fuel: nat, loop: Stmt, b: Outcome): Outcome
    decreases fuel, loop, 1
  {
    match b
    case Normal(s) => Exec(o, fuel, loop, s)
    case Continued(s) => Exec(o, fuel, loop, s)
    case Broke(s) => Normal(s)
    case _ => b
  }

  function ExecItems(o: Oracle, fuel: nat, items: Items, s: Store): Outcome
    decreases fuel, items
  {
    match items
    case NoItems => Normal(s)
    case Items(i, rest) =>
      var r := ExecItem(o, fuel, i, s);
      if r.Normal? then ExecItems(o, fuel, rest, r.s) else r
  }

  function ExecItem(o: Oracle, fuel: nat, i: Item, s: Store): Outcome
    decreases fuel, i
  {
    match i
    case ConstDecl => Normal(s)
    case VarDecl(defs) => ExecDefs(o, defs, s)
    case Stm(st) => Exec(o, fuel, st, s)
  }

  /** A declaration makes its variable indeterminate before its initialiser is evaluated. */
  function ExecDefs(o: Oracle, defs: Defs, s: Store): Outcome
  {
    match defs
    case NoDefs => Normal(s)
    case Defs(VarDef(x, init), rest) =>
      var s0 := s.(locals := s.locals - {x});
      match init
      case None => ExecDefs(o, rest, s0)
      case Some(e) =>
        var r := EvalExp(o, e, s0);
        if r.Value? then ExecDefs(o, rest, Write(r.s, Local(x), r.v)) else Failed(r)
  }

  /** `break` and `continue` occur only inside `while`: what semantic analysis enforces. */
  predicate WellNested(st: Stmt, inWhile: bool)
  {
    match st
    case Block(items) => ItemsWellNested(items, inWhile)
    case If(_, t, f) => WellNested(t, inWhile) && (f.Some? ==> WellNested(f.value, inWhile))
    case While(_, body) => WellNested(body, true)
    case Break => inWhile
    case Continue => inWhile
    case _ => true
  }

  predicate ItemsWellNested(items: Items, inWhile: bool)
  {
    items.Items? ==>
      && (items.head.Stm? ==> WellNested(items.head.s, inWhile))
      && ItemsWellNested(items.tail, inWhile)
  }

  lemma {:induction false} OnlyLoopsBreak(o: Oracle, fuel: nat, st: Stmt, s: Store)
    requires WellNested(st, false)
    ensures !Exec(o, fuel, st, s).Broke? && !Exec(o, fuel, st, s).Continued?
    decreases fuel, st
  {
    match st
    case Block(items) => OnlyLoopsBreakItems(o, fuel, items, s);
    case If(c, t, f) =>
      var r := EvalExp(o, c, s);
      if r.Value? {
        OnlyLoopsBreak(o, fuel, t, r.s);
        if f.Some? { OnlyLoopsBreak(o, fuel, f.value, r.s); }
      }
    case While(c, body) =>
      if fuel > 0 {
        var r := EvalExp(o, c, s);
        if r.Value? {
          var b := Exec(o, fuel - 1, body, r.s);
          if b.Normal? || b.Continued? { OnlyLoopsBreak(o, fuel - 1, st, b.s); }
        }
      }
    case _ =>
  }

  lemma {:induction false} OnlyLoopsBreakItems(o: Oracle, fuel: nat, items: Items, s: Store)
    requires ItemsWellNested(items, false)
    ensures !ExecItems(o, fuel, items, s).Broke? && !ExecItems(o, fuel, items, s).Continued?
    decreases fuel, items
  {
    match items
    case NoItems =>
    case Items(i, rest) =>
      match i {
        case ConstDecl =>
        case VarDecl(defs) => DefsDoNotBreak(o, defs, s);
        case Stm(st) => OnlyLoopsBreak(o, fuel, st, s);
      }
      var r := ExecItem(o, fuel, i, s);
      if r.Normal? { OnlyLoopsBreakItems(o, fuel, rest, r.s); }
  }

  lemma DefsDoNotBreak(o: Oracle, defs: Defs, s: Store)
    ensures var r := ExecDefs(o, defs, s); r.Normal? || r.Wrong? || r.OutOfFuel?
  {
  }

  // ----- functions -----

  /** The parameters start with the argument values, every other local is indeterminate. */
  function BindParams(params: seq<nat>, args: seq<Word>): map<nat, Word>
    requires |params| == |args|
  {
    if params == [] then map[]
    else BindParams(params[..|params| - 1], args[..|args| - 1])[params[|params| - 1] := args[|args| - 1]]
  }

  /** How one activation ends, as its caller sees it. */
  datatype Result = Done(v: Option<Word>, w: World) | FellOff | Stuck

  /** The result of a body run, None while it has not ended. Running off the end of a void function
      returns. */
  function Conclude(isVoid: bool, r: Outcome): Option<Result>
  {
    match r
    case Normal(s) => if isVoid then Some(Done(None, s.w)) else Some(FellOff)
    case Returned(v, w) => Some(Done(v, w))
    case OutOfFuel => None
    case _ => Some(Stuck)
  }

  function RunFunc(o: Oracle, fuel: nat, fd: FuncDef, args: seq<Word>, w: World): Option<Result>
    requires |fd.params| == |args|
  {
    Conclude(fd.isVoid, ExecItems(o, fuel, fd.body, Store(BindParams(fd.params, args), w)))
  }
}
