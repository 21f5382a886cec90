/**
 * The tree the parser builds, with names; its skeleton, which is all the symbol table sees; and two ways of putting
 * declarations in the place of names: by lexical scoping, and by the answers a pass has read off in order.
 */
module Names {
  import opened Words
  import opened Symbols
  import opened SymbolsBuild
  import Source

  // ----- trees with names -----

  datatype Exp =
    | Number(n: Word)
    | Name(name: string)
    | Apply(f: string, args: Exps)
    | Same(e: Exp)
    | Minus(e: Exp)
    | Opposite(e: Exp)
    | Arith(op: Source.BinOp, l: Exp, r: Exp)
    | Logical(lop: Source.LogicOp, l: Exp, r: Exp)

  datatype Exps = NoExps | Exps(head: Exp, tail: Exps)

  datatype Stmt =
    | Skip
    | Set(name: string, e: Exp)
    | Do(e: Exp)
    | Compound(items: Items)
    | Give(ret: Option<Exp>)
    | Choose(cond: Exp, thn: Stmt, els: Option<Stmt>)
    | Loop(cond: Exp, body: Stmt)
    | Leave
    | Again

  datatype NamedDef = NamedDef(name: string, init: Option<Exp>)

  datatype NamedDefs = One(def: NamedDef) | Many(def: NamedDef, rest: NamedDefs)

  datatype Item = Constants(defs: NamedDefs) | Variables(defs: NamedDefs) | Statement(s: Stmt)

  datatype Items = NoItems | Items(head: Item, tail: Items)

  datatype Declaration =
    | GlobalConstants(defs: NamedDefs)
    | GlobalVariables(defs: NamedDefs)
    | Function(isVoid: bool, name: string, params: seq<string>, body: Items)

  // ----- skeletons -----

  /** The names an expression looks up, in order: a function's before its arguments'. */
  function Uses(e: Exp): seq<string>
  {
    match e
    case Number(_) => []
    case Name(n) => [n]
    case Apply(f, args) => [f] + ArgsUses(args)
    case Same(e0) => Uses(e0)
    case Minus(e0) => Uses(e0)
    case Opposite(e0) => Uses(e0)
    case Arith(_, l, r) => Uses(l) + Uses(r)
    case Logical(_, l, r) => Uses(l) + Uses(r)
  }

  function ArgsUses(es: Exps): seq<string>
  {
    if es.NoExps? then [] else Uses(es.head) + ArgsUses(es.tail)
  }

  function InitUses(init: Option<Exp>): seq<string> { if init.Some? then Uses(init.value) else [] }

  function UsesThen(ns: seq<string>, rest: Parts): Parts
  {
    if ns == [] then rest else Parts(Use(ns[0]), UsesThen(ns[1..], rest))
  }

  function StmtParts(st: Stmt, rest: Parts): Parts
    decreases st
  {
    match st
    case Set(n, e) => UsesThen(Uses(e) + [n], rest)
    case Do(e) => UsesThen(Uses(e), rest)
    case Compound(items) => Parts(Part.Block(ItemsParts(items)), rest)
    case Give(ret) => UsesThen(InitUses(ret), rest)
    case Choose(c, t, f) => UsesThen(Uses(c), StmtParts(t, if f.Some? then StmtParts(f.value, rest) else rest))
    case Loop(c, body) => UsesThen(Uses(c), StmtParts(body, rest))
    case _ => rest
  }

  /** A `return` ends its list only where it is itself an item. */
  function ItemsParts(items: Items): Parts
    decreases items
  {
    match items
    case NoItems => NoParts
    case Items(Constants(defs), rest) => Parts(Const(DefsOf(defs)), ItemsParts(rest))
    case Items(Variables(defs), rest) => Parts(Part.Var(DefsOf(defs)), ItemsParts(rest))
    case Items(Statement(st), rest) =>
      StmtParts(st, if st.Give? then Parts(Return, ItemsParts(rest)) else ItemsParts(rest))
  }

  function DefsOf(defs: NamedDefs): Defs
  {
    var d := Def(defs.def.name, InitUses(defs.def.init));
    if defs.One? then Last(d) else More(d, DefsOf(defs.rest))
  }

  function Skeleton(g: Declaration): Global
  {
    match g
    case GlobalConstants(defs) => GlobalConst(DefsOf(defs))
    case GlobalVariables(defs) => Global.GlobalVar(DefsOf(defs))
    case Function(_, f, ps, body) => Func(f, ps, ItemsParts(body))
  }

  function Skeletons(gs: seq<Declaration>): seq<Global>
  {
    if gs == [] then [] else [Skeleton(gs[0])] + Skeletons(gs[1..])
  }

  // ----- what declarations are -----

  /** What was declared, for each item of the table. */
  datatype Meaning = Fixed(value: Word) | LocalVar | GlobalVar | Subroutine(isVoid: bool)

  type Meanings = nat -> Meaning

  /** The identity a lookup answers. In an accepted program only the initialiser of a variable can look up a name that
      is not there, and a well-named program has none such. */
  function Id(a: Option<nat>): nat { if a.Some? then a.value else 0 }

  function SymbolOf(k: Meanings, a: Option<nat>): Source.Symbol
  {
    if a.None? then Source.Variable(Source.Local(0))
    else
      match k(a.value)
      case Fixed(v) => Source.Constant(v)
      case GlobalVar => Source.Variable(Source.Global(a.value))
      case _ => Source.Variable(Source.Local(a.value))
  }

  function VariableOf(k: Meanings, a: Option<nat>): Source.Var
  {
    if a.Some? && k(a.value).GlobalVar? then Source.Global(a.value) else Source.Local(Id(a))
  }

  function CalleeOf(k: Meanings, a: Option<nat>): Source.Callee
  {
    Source.Callee(Id(a), a.Some? && k(a.value).Subroutine? && k(a.value).isVoid)
  }

  // ----- by lexical scoping -----

  function LexExp(k: Meanings, x: Lex, e: Exp): Source.Exp
  {
    match e
    case Number(n) => Source.Num(n)
    case Name(n) => Source.LVal(SymbolOf(k, Lookup(x, n)))
    case Apply(f, args) => Source.Call(CalleeOf(k, Lookup(x, f)), LexArgs(k, x, args))
    case Same(e0) => Source.Plus(LexExp(k, x, e0))
    case Minus(e0) => Source.Neg(LexExp(k, x, e0))
    case Opposite(e0) => Source.Not(LexExp(k, x, e0))
    case Arith(op, l, r) => Source.Exp.Binary(op, LexExp(k, x, l), LexExp(k, x, r))
    case Logical(op, l, r) => Source.Logic(op, LexExp(k, x, l), LexExp(k, x, r))
  }

  function LexArgs(k: Meanings, x: Lex, es: Exps): Source.Exps
  {
    if es.NoExps? then Source.NoExps else Source.Exps(LexExp(k, x, es.head), LexArgs(k, x, es.tail))
  }

  function LexInit(k: Meanings, x: Lex, init: Option<Exp>): Option<Source.Exp>
  {
    if init.Some? then Some(LexExp(k, x, init.value)) else None
  }

  /** The environment after a statement: nested blocks have used up identities. */
  function StmtLex(x: Lex, st: Stmt): Lex
    decreases st
  {
    match st
    case Compound(items) => LexPart(x, Part.Block(ItemsParts(items)))
    case Choose(_, t, f) => if f.Some? then StmtLex(StmtLex(x, t), f.value) else StmtLex(x, t)
    case Loop(_, body) => StmtLex(x, body)
    case _ => x
  }

  function LexStmt(k: Meanings, x: Lex, st: Stmt): Source.Stmt
    decreases st
  {
    match st
    case Skip => Source.Empty
    case Set(n, e) => Source.Assign(VariableOf(k, Lookup(x, n)), LexExp(k, x, e))
    case Do(e) => Source.Eval(LexExp(k, x, e))
    case Compound(items) => Source.Block(LexItems(k, x, items))
    case Give(ret) => Source.Stmt.Return(LexInit(k, x, ret))
    case Choose(c, t, f) =>
      Source.If(LexExp(k, x, c), LexStmt(k, x, t), if f.Some? then Some(LexStmt(k, StmtLex(x, t), f.value)) else None)
    case Loop(c, body) => Source.While(LexExp(k, x, c), LexStmt(k, x, body))
    case Leave => Source.Break
    case Again => Source.Continue
  }

  /** The items of a block, up to a `return`. */
  function LexItems(k: Meanings, x: Lex, items: Items): Source.Items
    decreases items
  {
    match items
    case NoItems => Source.NoItems
    case Items(Constants(defs), rest) =>
      Source.Items(Source.ConstDecl, LexItems(k, LexDefs(x, DefsOf(defs)), rest))
    case Items(Variables(defs), rest) =>
      var y := LexDefs(x, DefsOf(defs));
      Source.Items(Source.VarDecl(LexVars(k, y, defs)), LexItems(k, y, rest))
    case Items(Statement(st), rest) =>
      Source.Items(Source.Stm(LexStmt(k, x, st)),
                   if st.Give? then Source.NoItems else LexItems(k, StmtLex(x, st), rest))
  }

  /** All names of the declaration are in scope in each initialiser. */
  function LexVars(k: Meanings, x: Lex, defs: NamedDefs): Source.Defs
  {
    Source.Defs(Source.VarDef(Id(Lookup(x, defs.def.name)), LexInit(k, x, defs.def.init)),
                if defs.One? then Source.NoDefs else LexVars(k, x, defs.rest))
  }

  function Ids(answers: Trace): seq<nat>
  {
    if answers == [] then [] else [Id(answers[0])] + Ids(answers[1..])
  }

  /** The functions of a program. */
  function LexProgram(k: Meanings, x: Lex, gs: seq<Declaration>): seq<(nat, Source.FuncDef)>
    decreases |gs|
  {
    if gs == [] then []
    else
      (if gs[0].Function? then [LexFunction(k, x, gs[0])] else [])
      + LexProgram(k, LexGlobal(x, Skeleton(gs[0])), gs[1..])
  }

  function LexFunction(k: Meanings, x: Lex, g: Declaration): (nat, Source.FuncDef)
    requires g.Function?
  {
    var y := Declare(x, g.name);
    var z := LexParams(y, g.params);
    (Id(Lookup(y, g.name)), Source.FuncDef(g.isVoid, Ids(LookupAll(z, g.params)), LexItems(k, z, g.body)))
  }

  // ----- by the answers of a pass -----

  function Next(tr: Trace): Option<nat> { if tr == [] then None else tr[0] }

  function Drop(tr: Trace): Trace { if tr == [] then [] else tr[1..] }

  /** An expression and the answers left. */
  function ReadExp(k: Meanings, e: Exp, tr: Trace): (Source.Exp, Trace)
  {
    match e
    case Number(n) => (Source.Num(n), tr)
    case Name(_) => (Source.LVal(SymbolOf(k, Next(tr))), Drop(tr))
    case Apply(_, args) =>
      var (es, rest) := ReadArgs(k, args, Drop(tr));
      (Source.Call(CalleeOf(k, Next(tr)), es), rest)
    case Same(e0) => var (a, rest) := ReadExp(k, e0, tr); (Source.Plus(a), rest)
    case Minus(e0) => var (a, rest) := ReadExp(k, e0, tr); (Source.Neg(a), rest)
    case Opposite(e0) => var (a, rest) := ReadExp(k, e0, tr); (Source.Not(a), rest)
    case Arith(op, l, r) =>
      var (a, tr1) := ReadExp(k, l, tr);
      var (b, rest) := ReadExp(k, r, tr1);
      (Source.Exp.Binary(op, a, b), rest)
    case Logical(op, l, r) =>
      var (a, tr1) := ReadExp(k, l, tr);
      var (b, rest) := ReadExp(k, r, tr1);
      (Source.Logic(op, a, b), rest)
  }

  function ReadArgs(k: Meanings, es: Exps, tr: Trace): (Source.Exps, Trace)
  {
    if es.NoExps? then (Source.NoExps, tr)
    else
      var (a, tr1) := ReadExp(k, es.head, tr);
      var (more, rest) := ReadArgs(k, es.tail, tr1);
      (Source.Exps(a, more), rest)
  }

  function ReadInit(k: Meanings, init: Option<Exp>, tr: Trace): (Option<Source.Exp>, Trace)
  {
    if init.None? then (None, tr)
    else
      var (a, rest) := ReadExp(k, init.value, tr);
      (Some(a), rest)
  }

  function ReadStmt(k: Meanings, st: Stmt, tr: Trace): (Source.Stmt, Trace)
    decreases st
  {
    match st
    case Skip => (Source.Empty, tr)
    case Set(_, e) =>
      var (a, tr1) := ReadExp(k, e, tr);
      (Source.Assign(VariableOf(k, Next(tr1)), a), Drop(tr1))
    case Do(e) =>
      var (a, rest) := ReadExp(k, e, tr);
      (Source.Eval(a), rest)
    case Compound(items) =>
      var (list, rest) := ReadItems(k, items, tr);
      (Source.Block(list), rest)
    case Give(ret) =>
      var (a, rest) := ReadInit(k, ret, tr);
      (Source.Stmt.Return(a), rest)
    case Choose(c, t, f) =>
      var (a, tr1) := ReadExp(k, c, tr);
      var (b, tr2) := ReadStmt(k, t, tr1);
      if f.None? then (Source.If(a, b, None), tr2)
      else
        var (d, rest) := ReadStmt(k, f.value, tr2);
        (Source.If(a, b, Some(d)), rest)
    case Loop(c, body) =>
      var (a, tr1) := ReadExp(k, c, tr);
      var (b, rest) := ReadStmt(k, body, tr1);
      (Source.While(a, b), rest)
    case Leave => (Source.Break, tr)
    case Again => (Source.Continue, tr)
  }

  function ReadItems(k: Meanings, items: Items, tr: Trace): (Source.Items, Trace)
    decreases items
  {
    match items
    case NoItems => (Source.NoItems, tr)
    case Items(Constants(_), rest) =>
      var (list, tr1) := ReadItems(k, rest, tr);
      (Source.Items(Source.ConstDecl, list), tr1)
    case Items(Variables(defs), rest) =>
      var (ds, tr1) := ReadVars(k, defs, tr);
      var (list, tr2) := ReadItems(k, rest, tr1);
      (Source.Items(Source.VarDecl(ds), list), tr2)
    case Items(Statement(st), rest) =>
      var (s, tr1) := ReadStmt(k, st, tr);
      if st.Give? then (Source.Items(Source.Stm(s), Source.NoItems), tr1)
      else
        var (list, tr2) := ReadItems(k, rest, tr1);
        (Source.Items(Source.Stm(s), list), tr2)
  }

  function ReadVars(k: Meanings, defs: NamedDefs, tr: Trace): (Source.Defs, Trace)
  {
    var (a, tr1) := ReadInit(k, defs.def.init, Drop(tr));
    var (more, rest) := if defs.One? then (Source.NoDefs, tr1) else ReadVars(k, defs.rest, tr1);
    (Source.Defs(Source.VarDef(Id(Next(tr)), a), more), rest)
  }

  function ReadProgram(k: Meanings, gs: seq<Declaration>, tr: Trace): (seq<(nat, Source.FuncDef)>, Trace)
    decreases |gs|
  {
    if gs == [] then ([], tr)
    else
      match gs[0]
      case GlobalConstants(_) => ReadProgram(k, gs[1..], tr)
      case GlobalVariables(defs) => ReadProgram(k, gs[1..], ReadVars(k, defs, tr).1)
      case Function(_, _, _, _) =>
        var (f, tr1) := ReadFunction(k, gs[0], tr);
        var (fs, rest) := ReadProgram(k, gs[1..], tr1);
        ([f] + fs, rest)
  }

  function ReadFunction(k: Meanings, g: Declaration, tr: Trace): ((nat, Source.FuncDef), Trace)
    requires g.Function?
  {
    var n := |g.params|;
    var tr1 := Drop(tr);
    var (ps, tr2) := if n <= |tr1| then (tr1[..n], tr1[n..]) else (tr1, []);
    var (list, rest) := ReadItems(k, g.body, tr2);
    ((Id(Next(tr)), Source.FuncDef(g.isVoid, Ids(ps), list)), rest)
  }
}
