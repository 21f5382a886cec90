/**
 * What the first pass writes into the table: for every declaration, in order, whether it is a constant and of which
 * value, a variable, or a function.
 */
module NamesKinds {
  import opened Words
  import opened Names
  import opened NamesExec
  import opened NamesMeaning
  import opened NamesPrograms
  import opened NamesRun
  import opened SymbolsBuild
  import Programs
  import Source

  /** The contents so far, read by number. */
  function KindAt(ks: seq<Meaning>): Meanings { (d: nat) => if d < |ks| then ks[d] else LocalVar }

  /** ConstDef: the initialiser is folded, with the constants before it. */
  function ConstKinds(ks: seq<Meaning>, x: Lex, defs: NamedDefs): seq<Meaning>
    decreases defs
  {
    var more := ks + [Fixed(FoldedTo(KindAt(ks), x, defs.def.init))];
    if defs.One? then more else ConstKinds(more, Declare(x, defs.def.name), defs.rest)
  }

  function VarKinds(ks: seq<Meaning>, m: Meaning, defs: NamedDefs): seq<Meaning>
    decreases defs
  {
    if defs.One? then ks + [m] else VarKinds(ks + [m], m, defs.rest)
  }

  function StmtKinds(ks: seq<Meaning>, x: Lex, st: Stmt): seq<Meaning>
    decreases st
  {
    match st
    case Compound(items) => ItemKinds(ks, x, items)
    case Choose(_, t, f) =>
      var more := StmtKinds(ks, x, t);
      if f.Some? then StmtKinds(more, StmtLex(x, t), f.value) else more
    case Loop(_, body) => StmtKinds(ks, x, body)
    case _ => ks
  }

  function ItemKinds(ks: seq<Meaning>, x: Lex, items: Items): seq<Meaning>
    decreases items
  {
    match items
    case NoItems => ks
    case Items(Constants(defs), rest) => ItemKinds(ConstKinds(ks, x, defs), LexDefs(x, DefsOf(defs)), rest)
    case Items(Variables(defs), rest) => ItemKinds(VarKinds(ks, LocalVar, defs), LexDefs(x, DefsOf(defs)), rest)
    case Items(Statement(st), rest) => ItemKinds(StmtKinds(ks, x, st), StmtLex(x, st), rest)
  }

  function ParamKinds(ps: seq<string>): seq<Meaning> { seq(|ps|, i => LocalVar) }

  function GlobalKinds(ks: seq<Meaning>, x: Lex, g: Declaration): seq<Meaning>
  {
    match g
    case GlobalConstants(defs) => ConstKinds(ks, x, defs)
    case GlobalVariables(defs) => VarKinds(ks, GlobalVar, defs)
    case Function(isVoid, f, ps, body) =>
      ItemKinds(ks + [Subroutine(isVoid)] + ParamKinds(ps), LexParams(Declare(x, f), ps), body)
  }

  function ProgramKinds(ks: seq<Meaning>, x: Lex, gs: seq<Declaration>): seq<Meaning>
    decreases |gs|
  {
    if gs == [] then ks else ProgramKinds(GlobalKinds(ks, x, gs[0]), LexGlobal(x, Skeleton(gs[0])), gs[1..])
  }

  // ----- folding with what is known so far -----

  lemma {:induction false} FoundInEnv(x: Lex, n: string)
    ensures Lookup(x, n).Some? ==> Lookup(x, n).value in x.env
    decreases |x.env|
  {
    if x.env != [] { FoundInEnv(x.(env := x.env[..|x.env| - 1]), n); }
  }

  predicate SameKinds(k: Meanings, m: Meanings, x: Lex) { forall d :: d in x.env ==> k(d) == m(d) }

  lemma {:induction false} SameResolved(k: Meanings, m: Meanings, x: Lex, e: Exp)
    requires SameKinds(k, m, x)
    ensures LexExp(k, x, e) == LexExp(m, x, e)
    decreases e
  {
    match e
    case Number(_) =>
    case Name(n) => FoundInEnv(x, n);
    case Apply(f, args) =>
      FoundInEnv(x, f);
      SameResolvedArgs(k, m, x, args);
    case Same(e0) => SameResolved(k, m, x, e0);
    case Minus(e0) => SameResolved(k, m, x, e0);
    case Opposite(e0) => SameResolved(k, m, x, e0);
    case Arith(_, l, r) =>
      SameResolved(k, m, x, l);
      SameResolved(k, m, x, r);
    case Logical(_, l, r) =>
      SameResolved(k, m, x, l);
      SameResolved(k, m, x, r);
  }

  lemma {:induction false} SameResolvedArgs(k: Meanings, m: Meanings, x: Lex, es: Exps)
    requires SameKinds(k, m, x)
    ensures LexArgs(k, x, es) == LexArgs(m, x, es)
    decreases es
  {
    if es.Exps? {
      SameResolved(k, m, x, es.head);
      SameResolvedArgs(k, m, x, es.tail);
    }
  }

  /** Later contents leave a fold as it was. */
  lemma FoldedSame(ks: seq<Meaning>, all: seq<Meaning>, x: Lex, init: Option<Exp>)
    requires ks <= all && |ks| == |x.names| && Numbered(x)
    ensures FoldedTo(KindAt(ks), x, init) == FoldedTo(KindAt(all), x, init)
  {
    forall d | d in x.env ensures KindAt(ks)(d) == KindAt(all)(d) {
      var i :| 0 <= i < |x.env| && x.env[i] == d;
    }
    if init.Some? { SameResolved(KindAt(ks), KindAt(all), x, init.value); }
  }

  // ----- the contents are what the declarations say -----

  lemma {:induction false} ConstKindsGrow(ks: seq<Meaning>, x: Lex, defs: NamedDefs)
    ensures ks <= ConstKinds(ks, x, defs) && |ConstKinds(ks, x, defs)| == |ks| + DefCount(defs)
    decreases defs
  {
    if defs.Many? {
      ConstKindsGrow(ks + [Fixed(FoldedTo(KindAt(ks), x, defs.def.init))], Declare(x, defs.def.name), defs.rest);
    }
  }

  lemma {:induction false} ConstKindsSay(ks: seq<Meaning>, x: Lex, defs: NamedDefs, all: seq<Meaning>)
    requires |ks| == |x.names| && Numbered(x) && ConstKinds(ks, x, defs) <= all
    ensures ConstsSay(KindAt(all), x, defs)
    decreases defs
  {
    hide FoldedTo, Numbered;
    var more := ks + [Fixed(FoldedTo(KindAt(ks), x, defs.def.init))];
    if defs.Many? {
      ConstKindsGrow(more, Declare(x, defs.def.name), defs.rest);
      LookupDeclare(x, defs.def.name, "");
      ConstKindsSay(more, Declare(x, defs.def.name), defs.rest, all);
    }
    assert more <= all && ks <= all && all[|ks|] == more[|ks|];
    FoldedSame(ks, all, x, defs.def.init);
  }

  lemma {:induction false} VarKindsSay(ks: seq<Meaning>, m: Meaning, defs: NamedDefs, all: seq<Meaning>)
    ensures ks <= VarKinds(ks, m, defs) && |VarKinds(ks, m, defs)| == |ks| + DefCount(defs)
    ensures VarKinds(ks, m, defs) <= all ==> VarsSay(KindAt(all), |ks|, m, defs)
    decreases defs
  {
    if defs.Many? { VarKindsSay(ks + [m], m, defs.rest, all); }
    if VarKinds(ks, m, defs) <= all { assert (ks + [m])[|ks|] == all[|ks|]; }
  }

  lemma {:induction false} StmtKindsGrow(ks: seq<Meaning>, x: Lex, st: Stmt)
    ensures ks <= StmtKinds(ks, x, st) && |StmtKinds(ks, x, st)| == |ks| + StmtCount(st)
    decreases st
  {
    match st
    case Compound(items) => ItemKindsGrow(ks, x, items);
    case Choose(_, t, f) =>
      StmtKindsGrow(ks, x, t);
      if f.Some? { StmtKindsGrow(StmtKinds(ks, x, t), StmtLex(x, t), f.value); }
    case Loop(_, body) => StmtKindsGrow(ks, x, body);
    case _ =>
  }

  lemma {:induction false} ItemKindsGrow(ks: seq<Meaning>, x: Lex, items: Items)
    ensures ks <= ItemKinds(ks, x, items) && |ItemKinds(ks, x, items)| == |ks| + ItemCount(items)
    decreases items
  {
    match items
    case NoItems =>
    case Items(Constants(defs), rest) =>
      ConstKindsGrow(ks, x, defs);
      ItemKindsGrow(ConstKinds(ks, x, defs), LexDefs(x, DefsOf(defs)), rest);
    case Items(Variables(defs), rest) =>
      VarKindsSay(ks, LocalVar, defs, []);
      ItemKindsGrow(VarKinds(ks, LocalVar, defs), LexDefs(x, DefsOf(defs)), rest);
    case Items(Statement(st), rest) =>
      StmtKindsGrow(ks, x, st);
      ItemKindsGrow(StmtKinds(ks, x, st), StmtLex(x, st), rest);
  }

  lemma {:induction false} DefsNumbered(x: Lex, defs: NamedDefs)
    requires Numbered(x)
    ensures Numbered(LexDefs(x, DefsOf(defs)))
    decreases defs
  {
    LookupDeclare(x, defs.def.name, "");
    if defs.Many? { DefsNumbered(Declare(x, defs.def.name), defs.rest); }
  }

  lemma StmtNumbered(x: Lex, st: Stmt)
    requires Numbered(x)
    ensures Numbered(StmtLex(x, st))
  {
    StmtGrows(x, st);
  }

  lemma {:induction false} StmtKindsSay(ks: seq<Meaning>, x: Lex, st: Stmt, all: seq<Meaning>)
    requires |ks| == |x.names| && Numbered(x) && StmtKinds(ks, x, st) <= all
    ensures StmtSays(KindAt(all), x, st)
    decreases st
  {
    match st
    case Compound(items) => ItemKindsSay(ks, x, items, all);
    case Choose(_, t, f) =>
      var more := StmtKinds(ks, x, t);
      StmtKindsGrow(ks, x, t);
      StmtCounted(x, t);
      StmtNumbered(x, t);
      if f.Some? {
        StmtKindsGrow(more, StmtLex(x, t), f.value);
        StmtKindsSay(more, StmtLex(x, t), f.value, all);
      }
      StmtKindsSay(ks, x, t, all);
    case Loop(_, body) => StmtKindsSay(ks, x, body, all);
    case _ =>
  }

  lemma {:induction false} ItemKindsSay(ks: seq<Meaning>, x: Lex, items: Items, all: seq<Meaning>)
    requires |ks| == |x.names| && Numbered(x) && ItemKinds(ks, x, items) <= all
    ensures ItemsSay(KindAt(all), x, items)
    decreases items
  {
    hide Numbered;
    match items
    case NoItems =>
    case Items(Constants(defs), rest) =>
      var more, y := ConstKinds(ks, x, defs), LexDefs(x, DefsOf(defs));
      ConstKindsGrow(ks, x, defs);
      DefsCounted(x, defs);
      DefsNumbered(x, defs);
      ItemKindsGrow(more, y, rest);
      ItemKindsSay(more, y, rest, all);
      ConstKindsSay(ks, x, defs, all);
    case Items(Variables(defs), rest) =>
      var more, y := VarKinds(ks, LocalVar, defs), LexDefs(x, DefsOf(defs));
      VarKindsSay(ks, LocalVar, defs, all);
      DefsCounted(x, defs);
      DefsNumbered(x, defs);
      ItemKindsGrow(more, y, rest);
      ItemKindsSay(more, y, rest, all);
    case Items(Statement(st), rest) =>
      var more, y := StmtKinds(ks, x, st), StmtLex(x, st);
      StmtKindsGrow(ks, x, st);
      StmtCounted(x, st);
      StmtNumbered(x, st);
      ItemKindsGrow(more, y, rest);
      ItemKindsSay(more, y, rest, all);
      StmtKindsSay(ks, x, st, all);
  }

  lemma GlobalKindsGrow(ks: seq<Meaning>, x: Lex, g: Declaration)
    ensures ks <= GlobalKinds(ks, x, g) && |GlobalKinds(ks, x, g)| == |ks| + Count(g)
  {
    match g
    case GlobalConstants(defs) => ConstKindsGrow(ks, x, defs);
    case GlobalVariables(defs) => VarKindsSay(ks, GlobalVar, defs, []);
    case Function(isVoid, f, ps, body) =>
      ItemKindsGrow(ks + [Subroutine(isVoid)] + ParamKinds(ps), LexParams(Declare(x, f), ps), body);
  }

  lemma GlobalKindsSay(ks: seq<Meaning>, x: Lex, g: Declaration, all: seq<Meaning>)
    requires |ks| == |x.names| && Numbered(x) && GlobalKinds(ks, x, g) <= all
    ensures GlobalSays(KindAt(all), x, g)
  {
    hide Numbered;
    match g
    case GlobalConstants(defs) => ConstKindsSay(ks, x, defs, all);
    case GlobalVariables(defs) => VarKindsSay(ks, GlobalVar, defs, all);
    case Function(isVoid, f, ps, body) =>
      var y := Declare(x, f);
      var more := ks + [Subroutine(isVoid)] + ParamKinds(ps);
      LookupDeclare(x, f, "");
      ParamsNumbered(y, ps);
      ParamsCounted(y, ps);
      ItemKindsGrow(more, LexParams(y, ps), body);
      ItemKindsSay(more, LexParams(y, ps), body, all);
      assert more <= all && all[|ks|] == more[|ks|];
      forall j | |ks| + 1 <= j < |ks| + 1 + |ps| ensures KindAt(all)(j) == LocalVar { assert all[j] == more[j]; }
  }

  lemma {:induction false} ProgramKindsGrow(ks: seq<Meaning>, x: Lex, gs: seq<Declaration>)
    ensures ks <= ProgramKinds(ks, x, gs)
    decreases |gs|
  {
    if gs != [] {
      GlobalKindsGrow(ks, x, gs[0]);
      ProgramKindsGrow(GlobalKinds(ks, x, gs[0]), LexGlobal(x, Skeleton(gs[0])), gs[1..]);
    }
  }

  lemma {:induction false} ProgramKindsSay(ks: seq<Meaning>, x: Lex, gs: seq<Declaration>, all: seq<Meaning>)
    requires |ks| == |x.names| && Numbered(x) && ProgramKinds(ks, x, gs) <= all
    ensures ProgramSays(KindAt(all), x, gs)
    decreases |gs|
  {
    hide Numbered, GlobalKinds, GlobalSays, LexGlobal;
    if gs != [] {
      var g := gs[0];
      var more, y := GlobalKinds(ks, x, g), LexGlobal(x, Skeleton(g));
      GlobalKindsGrow(ks, x, g);
      GlobalCounted(x, g);
      GlobalNumbered(x, g);
      ProgramKindsGrow(more, y, gs[1..]);
      ProgramKindsSay(more, y, gs[1..], all);
      GlobalKindsSay(ks, x, g, all);
    }
  }

  lemma GlobalNumbered(x: Lex, g: Declaration)
    requires Numbered(x)
    ensures Numbered(LexGlobal(x, Skeleton(g)))
  {
    match g
    case GlobalConstants(defs) => DefsNumbered(x, defs);
    case GlobalVariables(defs) => DefsNumbered(x, defs);
    case Function(_, f, ps, body) =>
      LookupDeclare(x, f, "");
      ParamsGrow(Declare(x, f), ps);
      PartsGrow(LexParams(Declare(x, f), ps), ItemsParts(body));
  }

  // ----- from the library on -----

  /** The run-time library: its functions' names, and which return nothing. */
  datatype Prelude = Prelude(names: seq<string>, voids: seq<bool>)
  {
    predicate Valid() { |names| == |voids| }

    function Env(): Lex { LexParams(Lex([], []), names) }

    function Kinds(): seq<Meaning> { seq(|voids|, i requires 0 <= i < |voids| => Subroutine(voids[i])) }

    function Scopes(): Scopes
      requires Valid()
    {
      seq(|names|, i requires 0 <= i < |names| => Binding(names[i], Routine(i, voids[i])))
    }
  }

  /** The contents of the table for a whole program. */
  function KindsOf(lib: Prelude, gs: seq<Declaration>): Meanings
  {
    KindAt(ProgramKinds(lib.Kinds(), lib.Env(), gs))
  }

  lemma {:induction false} PreludeRep(k: Meanings, lib: Prelude, n: nat)
    requires lib.Valid() && n <= |lib.names| && forall i :: 0 <= i < |lib.voids| ==> k(i) == Subroutine(lib.voids[i])
    ensures Rep(k, LexParams(Lex([], []), lib.names[..n]), lib.Scopes()[..n], map[])
    ensures |LexParams(Lex([], []), lib.names[..n]).names| == n
    decreases n
  {
    if n > 0 {
      PreludeRep(k, lib, n - 1);
      var x, most := LexParams(Lex([], []), lib.names[..n - 1]), lib.Scopes()[..n - 1];
      assert lib.names[..n][..n - 1] == lib.names[..n - 1];
      hide Rep;
      RepBind(k, x, most, map[], lib.names[n - 1], Routine(n - 1, lib.voids[n - 1]), map[]);
      assert lib.Scopes()[..n] == most + [Binding(lib.names[n - 1], Routine(n - 1, lib.voids[n - 1]))];
    }
  }

  /** The contents are what every declaration says. */
  lemma KindsSay(lib: Prelude, gs: seq<Declaration>)
    requires lib.Valid()
    ensures ProgramSays(KindsOf(lib, gs), lib.Env(), gs)
    ensures Rep(KindsOf(lib, gs), lib.Env(), lib.Scopes(), map[]) && |lib.Env().names| == |lib.names|
  {
    var ks, x := lib.Kinds(), lib.Env();
    var all := ProgramKinds(ks, x, gs);
    ProgramKindsGrow(ks, x, gs);
    forall i | 0 <= i < |lib.voids| ensures KindAt(all)(i) == Subroutine(lib.voids[i]) { assert all[i] == ks[i]; }
    PreludeRep(KindAt(all), lib, |lib.names|);
    assert lib.names[..|lib.names|] == lib.names && lib.Scopes()[..|lib.names|] == lib.Scopes();
    RepNumbered(KindAt(all), x, lib.Scopes(), map[]);
    ProgramKindsSay(ks, x, gs, all);
  }

  // ----- programs -----

  /** The program with names, over a library that answers as run says. */
  function NamedOf(lib: Prelude, gs: seq<Declaration>, run: Source.Library): NamedProgram
    requires lib.Valid()
  {
    match Closures(lib.Scopes(), |lib.names|, gs)
    case Some(cs) => NamedProgram(cs, run)
    case None => NamedProgram([], run)
  }

  /** In every program the two passes accept, whose constants fold right and none of whose initialisers names what its
      list declares later: calls mean the same with names and with declarations in their place. */
  lemma ResolvedMeansTheSame(lib: Prelude, gs: seq<Declaration>, run: Source.Library, depth: nat,
                             callee: Source.Callee, args: seq<Word>, w: Source.World)
    requires lib.Valid() && ProgramNamed(KindsOf(lib, gs), lib.Env(), gs)
    requires Programs.AllWellNested(Programs.SourceProgram(LexProgram(KindsOf(lib, gs), lib.Env(), gs), run))
    ensures Closures(lib.Scopes(), |lib.names|, gs).Some?
    ensures CallNamed(NamedOf(lib, gs, run), depth, callee, args, w) ==
            Programs.CallSource(Programs.SourceProgram(LexProgram(KindsOf(lib, gs), lib.Env(), gs), run), depth, callee,
                                args, w)
  {
    hide ProgramNamed, ProgramSays, Rep, LexProgram, KindsOf, Closures, Programs.AllWellNested, AllFit;
    var k, x := KindsOf(lib, gs), lib.Env();
    KindsSay(lib, gs);
    ProgramFits(k, x, lib.Scopes(), gs);
    CallsAgree(k, NamedOf(lib, gs, run), Programs.SourceProgram(LexProgram(k, x, gs), run), depth, callee, args, w);
  }
}
