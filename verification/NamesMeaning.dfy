/**
 * What a program with names means: a stack of named bindings, the innermost last, and no numbers for the variables of a
 * function. A name stands for its innermost binding (section 6.2.1 of ISO C11); a binding begins right after its
 * declarator and ends with its block.
 */
module NamesMeaning {
  import opened Words
  import opened Names
  import Programs
  import Source

  /** What a name is bound to: a constant, a variable of the function with what it holds, a global variable or a
      function, which are known to the world by their numbers. */
  datatype Thing = Constant(v: Word) | Cell(held: Option<Word>) | Shared(g: nat) | Routine(f: nat, isVoid: bool)

  datatype Binding = Binding(name: string, what: Thing)

  type Scopes = seq<Binding>

  /** Where the innermost binding of a name is. */
  function Place(scopes: Scopes, n: string): Option<nat>
  {
    if scopes == [] then None
    else if scopes[|scopes| - 1].name == n then Some(|scopes| - 1)
    else Place(scopes[..|scopes| - 1], n)
  }

  lemma {:induction false} PlaceIsInnermost(scopes: Scopes, n: string)
    ensures match Place(scopes, n)
            case None => forall i :: 0 <= i < |scopes| ==> scopes[i].name != n
            case Some(p) =>
              p < |scopes| && scopes[p].name == n && forall i :: p < i < |scopes| ==> scopes[i].name != n
  {
    if scopes != [] {
      PlaceIsInnermost(scopes[..|scopes| - 1], n);
    }
  }

  function Denotes(scopes: Scopes, n: string): Option<Thing>
  {
    match Place(scopes, n)
    case None => None
    case Some(p) => if p < |scopes| then Some(scopes[p].what) else None
  }

  // ----- expressions -----

  datatype Got = Got(v: Word, w: Source.World) | Bad | Hung

  datatype GotAll = GotAll(vs: seq<Word>, w: Source.World) | AllBad | AllHung

  function Fetch(scopes: Scopes, n: string, w: Source.World): Got
  {
    match Denotes(scopes, n)
    case Some(Constant(v)) => Got(v, w)
    case Some(Cell(Some(v))) => Got(v, w)
    case Some(Shared(g)) => if g in w.globals then Got(w.globals[g], w) else Bad
    case _ => Bad
  }

  function Invoke(o: Source.Oracle, scopes: Scopes, f: string, vs: seq<Word>, w: Source.World): Got
  {
    match Denotes(scopes, f)
    case Some(Routine(i, isVoid)) =>
      (match o(w, Source.Callee(i, isVoid), vs)
       case Returns(w1, v) => Got(v, w1)
       case Fails => Bad
       case Hangs => Hung)
    case _ => Bad
  }

  function Value(o: Source.Oracle, scopes: Scopes, e: Exp, w: Source.World): Got
  {
    match e
    case Number(n) => Got(n, w)
    case Name(n) => Fetch(scopes, n, w)
    case Apply(f, args) =>
      (match Values(o, scopes, args, w)
       case GotAll(vs, w1) => Invoke(o, scopes, f, vs, w1)
       case AllBad => Bad
       case AllHung => Hung)
    case Same(e0) => Value(o, scopes, e0, w)
    case Minus(e0) =>
      var r := Value(o, scopes, e0, w);
      if r.Got? then Got(Wrap(0 - r.v), r.w) else r
    case Opposite(e0) =>
      var r := Value(o, scopes, e0, w);
      if r.Got? then Got(Bool(r.v == 0), r.w) else r
    case Arith(op, l, r) =>
      var a := Value(o, scopes, l, w);
      if !a.Got? then a else
      var b := Value(o, scopes, r, a.w);
      if b.Got? then Got(Source.Apply(op, a.v, b.v), b.w) else b
    case Logical(Lor, l, r) =>
      var a := Value(o, scopes, l, w);
      if !a.Got? then a else if a.v != 0 then Got(1, a.w) else
      var b := Value(o, scopes, r, a.w);
      if b.Got? then Got(Bool(b.v != 0), b.w) else b
    case Logical(Land, l, r) =>
      var a := Value(o, scopes, l, w);
      if !a.Got? then a else if a.v == 0 then Got(0, a.w) else
      var b := Value(o, scopes, r, a.w);
      if b.Got? then Got(Bool(b.v != 0), b.w) else b
  }

  function Values(o: Source.Oracle, scopes: Scopes, es: Exps, w: Source.World): GotAll
  {
    match es
    case NoExps => GotAll([], w)
    case Exps(e, rest) =>
      match Value(o, scopes, e, w)
      case Bad => AllBad
      case Hung => AllHung
      case Got(v, w1) =>
        var r := Values(o, scopes, rest, w1);
        if r.GotAll? then GotAll([v] + r.vs, r.w) else r
  }

  // ----- statements -----

  datatype State = State(scopes: Scopes, w: Source.World)

  datatype Outcome =
    | Normal(s: State)
    | Broke(s: State)
    | Continued(s: State)
    | Returned(v: Option<Word>, w: Source.World)
    | Wrong
    | OutOfFuel

  function Failed(r: Got): Outcome { if r.Hung? then OutOfFuel else Wrong }

  /** Storing into a variable: the innermost binding of its name. */
  function Keep(s: State, n: string, v: Word): Outcome
  {
    match Place(s.scopes, n)
    case None => Wrong
    case Some(p) =>
      if p >= |s.scopes| then Wrong else
      match s.scopes[p].what
      case Cell(_) => Normal(s.(scopes := s.scopes[p := Binding(n, Cell(Some(v)))]))
      case Shared(g) => Normal(s.(w := s.w.(globals := s.w.globals[g := v])))
      case _ => Wrong
  }

  /** What leaves a block takes its bindings away. */
  function Close(r: Outcome, n: nat): Outcome
  {
    match r
    case Normal(s) => Normal(Back(s, n))
    case Broke(s) => Broke(Back(s, n))
    case Continued(s) => Continued(Back(s, n))
    case _ => r
  }

  function Back(s: State, n: nat): State { if n <= |s.scopes| then s.(scopes := s.scopes[..n]) else s }

  function Run(o: Source.Oracle, fuel: nat, st: Stmt, s: State): Outcome
    decreases fuel, st, 0
  {
    match st
    case Skip => Normal(s)
    case Set(n, e) =>
      var r := Value(o, s.scopes, e, s.w);
      if r.Got? then Keep(State(s.scopes, r.w), n, r.v) else Failed(r)
    case Do(e) =>
      var r := Value(o, s.scopes, e, s.w);
      if r.Got? then Normal(State(s.scopes, r.w)) else Failed(r)
    case Compound(items) => Close(RunItems(o, fuel, items, s), |s.scopes|)
    case Give(None) => Returned(None, s.w)
    case Give(Some(e)) =>
      var r := Value(o, s.scopes, e, s.w);
      if r.Got? then Returned(Some(r.v), r.w) else Failed(r)
    case Choose(c, t, f) =>
      var r := Value(o, s.scopes, c, s.w);
      if !r.Got? then Failed(r)
      else if r.v != 0 then Run(o, fuel, t, State(s.scopes, r.w))
      else if f.Some? then Run(o, fuel, f.value, State(s.scopes, r.w))
      else Normal(State(s.scopes, r.w))
    case Loop(c, body) =>
      if fuel == 0 then OutOfFuel else
      var r := Value(o, s.scopes, c, s.w);
      if !r.Got? then Failed(r)
      else if r.v == 0 then Normal(State(s.scopes, r.w))
      else Again(o, fuel - 1, st, Run(o, fuel - 1, body, State(s.scopes, r.w)))
    case Leave => Broke(s)
    case Again => Continued(s)
  }

  function Again(o: Source.Oracle, fuel: nat, loop: Stmt, b: Outcome): Outcome
    decreases fuel, loop, 1
  {
    match b
    case Normal(s) => Run(o, fuel, loop, s)
    case Continued(s) => Run(o, fuel, loop, s)
    case Broke(s) => Normal(s)
    case _ => b
  }

  function RunItems(o: Source.Oracle, fuel: nat, items: Items, s: State): Outcome
    decreases fuel, items
  {
    match items
    case NoItems => Normal(s)
    case Items(i, rest) =>
      var r := RunItem(o, fuel, i, s);
      if r.Normal? then RunItems(o, fuel, rest, r.s) else r
  }

  function RunItem(o: Source.Oracle, fuel: nat, i: Item, s: State): Outcome
    decreases fuel, i
  {
    match i
    case Constants(defs) =>
      (match Bind(s.scopes, defs)
       case None => Wrong
       case Some(scopes) => Normal(s.(scopes := scopes)))
    case Variables(defs) => RunVars(o, defs, s)
    case Statement(st) => Run(o, fuel, st, s)
  }

  function NoCalls(): Source.Oracle { (w, f, vs) => Source.Fails }

  /** The value of a constant's initialiser, which calls nothing and reads nothing that can change. */
  function Settled(scopes: Scopes, init: Option<Exp>): Option<Word>
  {
    if init.None? then None else
    match Value(NoCalls(), scopes, init.value, Source.World(map[], []))
    case Got(v, _) => Some(v)
    case _ => None
  }

  function Bind(scopes: Scopes, defs: NamedDefs): Option<Scopes>
    decreases defs
  {
    match Settled(scopes, defs.def.init)
    case None => None
    case Some(v) =>
      var more := scopes + [Binding(defs.def.name, Constant(v))];
      if defs.One? then Some(more) else Bind(more, defs.rest)
  }

  /** A variable holds nothing until its initialiser has been evaluated, in which its own name is already bound. */
  function RunVars(o: Source.Oracle, defs: NamedDefs, s: State): Outcome
    decreases defs
  {
    var NamedDef(n, init) := defs.def;
    var made := s.scopes + [Binding(n, Cell(None))];
    match init
    case None => if defs.One? then Normal(State(made, s.w)) else RunVars(o, defs.rest, State(made, s.w))
    case Some(e) =>
      var r := Value(o, made, e, s.w);
      if !r.Got? then Failed(r)
      else
        var t := State(s.scopes + [Binding(n, Cell(Some(r.v)))], r.w);
        if defs.One? then Normal(t) else RunVars(o, defs.rest, t)
  }

  // ----- functions -----

  /** A function and the bindings it is declared under. */
  datatype Closure = Closure(isVoid: bool, params: seq<string>, body: Items, scopes: Scopes)

  function Parameters(ps: seq<string>, args: seq<Word>): Scopes
    requires |ps| == |args|
  {
    seq(|ps|, i requires 0 <= i < |ps| => Binding(ps[i], Cell(Some(args[i]))))
  }

  function RunClosure(o: Source.Oracle, fuel: nat, c: Closure, args: seq<Word>, w: Source.World): Option<Source.Result>
    requires |c.params| == |args|
  {
    match RunItems(o, fuel, c.body, State(c.scopes + Parameters(c.params, args), w))
    case Normal(s) => if c.isVoid then Some(Source.Done(None, s.w)) else Some(Source.FellOff)
    case Returned(v, w1) => Some(Source.Done(v, w1))
    case OutOfFuel => None
    case _ => Some(Source.Stuck)
  }

  // ----- programs -----

  datatype NamedProgram = NamedProgram(funcs: seq<(nat, Closure)>, lib: Source.Library)

  /** The bindings of global names after a declaration, of which the first has number n. */
  function BindGlobal(scopes: Scopes, n: nat, g: Declaration): Option<Scopes>
  {
    match g
    case GlobalConstants(defs) => Bind(scopes, defs)
    case GlobalVariables(defs) => Some(scopes + SharedFrom(n, defs))
    case Function(isVoid, f, _, _) => Some(scopes + [Binding(f, Routine(n, isVoid))])
  }

  function SharedFrom(n: nat, defs: NamedDefs): Scopes
    decreases defs
  {
    [Binding(defs.def.name, Shared(n))] + if defs.One? then [] else SharedFrom(n + 1, defs.rest)
  }

  /** How many names a declaration declares, with those inside. */
  function Count(g: Declaration): nat
  {
    match g
    case GlobalConstants(defs) => DefCount(defs)
    case GlobalVariables(defs) => DefCount(defs)
    case Function(_, _, ps, body) => 1 + |ps| + ItemCount(body)
  }

  function DefCount(defs: NamedDefs): nat { 1 + if defs.One? then 0 else DefCount(defs.rest) }

  function StmtCount(st: Stmt): nat
    decreases st
  {
    match st
    case Compound(items) => ItemCount(items)
    case Choose(_, t, f) => StmtCount(t) + if f.Some? then StmtCount(f.value) else 0
    case Loop(_, body) => StmtCount(body)
    case _ => 0
  }

  function ItemCount(items: Items): nat
    decreases items
  {
    match items
    case NoItems => 0
    case Items(Constants(defs), rest) => DefCount(defs) + ItemCount(rest)
    case Items(Variables(defs), rest) => DefCount(defs) + ItemCount(rest)
    case Items(Statement(st), rest) => StmtCount(st) + ItemCount(rest)
  }

  /** The functions of a program: each sees what is declared before it, and itself. Globals and functions have the
      numbers of their declarations. */
  function Closures(scopes: Scopes, n: nat, gs: seq<Declaration>): Option<seq<(nat, Closure)>>
    decreases |gs|
  {
    if gs == [] then Some([])
    else
      match BindGlobal(scopes, n, gs[0])
      case None => None
      case Some(more) =>
        match Closures(more, n + Count(gs[0]), gs[1..])
        case None => None
        case Some(fs) =>
          if gs[0].Function? then Some([(n, Closure(gs[0].isVoid, gs[0].params, gs[0].body, more))] + fs) else Some(fs)
  }

  // ----- calls -----

  /** A call of a named function that may nest `depth` calls deep. */
  ghost function CallNamed(p: NamedProgram, depth: nat, callee: Source.Callee, args: seq<Word>, w: Source.World)
    : Source.CallResult
    decreases depth, 0
  {
    match Programs.Find(p.funcs, callee.f)
    case None => Programs.CallLibrary(p.lib, callee.f, args, w)
    case Some(c) =>
      if |args| != |c.params| then Source.Fails
      else if depth == 0 then Source.Hangs
      else
        var o := NamedCalls(p, depth - 1);
        if exists r :: NamedEndsWith(o, c, args, w, r)
        then var r :| NamedEndsWith(o, c, args, w, r); Programs.Answer(c.isVoid, r)
        else Source.Hangs
  }

  ghost function NamedCalls(p: NamedProgram, depth: nat): Source.Oracle
    decreases depth, 1
  {
    (w, f, args) => CallNamed(p, depth, f, args, w)
  }

  ghost predicate NamedEndsWith(o: Source.Oracle, c: Closure, args: seq<Word>, w: Source.World, r: Source.Result)
    requires |args| == |c.params|
  {
    exists fuel: nat :: RunClosure(o, fuel, c, args, w) == Some(r)
  }
}
