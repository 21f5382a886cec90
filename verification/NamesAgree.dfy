/**
 * A tree resolved by the answers of the second pass is the tree resolved by lexical scoping, and compiles to a program
 * that does what that tree means.
 */
module NamesAgree {
  import opened Words
  import opened Symbols
  import opened SymbolsBuild
  import opened SymbolsReplay
  import opened SymbolsExact
  import opened Names
  import opened NamesKinds
  import opened NamesMeaning
  import opened NamesPrograms
  import CodegenEntry
  import EndToEnd
  import Programs
  import Riscv
  import Codegen
  import CodegenCalls
  import LoweringLocal
  import Source

  // ----- traces of statements -----

  lemma {:induction false} LookupJoin(x: Lex, ns: seq<string>, ms: seq<string>)
    ensures LookupAll(x, ns + ms) == LookupAll(x, ns) + LookupAll(x, ms)
  {
    if ns == [] {
      assert ns + ms == ms;
      assert [] + LookupAll(x, ms) == LookupAll(x, ms);
    } else {
      assert (ns + ms)[1..] == ns[1..] + ms;
      LookupJoin(x, ns[1..], ms);
      assert [Lookup(x, ns[0])] + (LookupAll(x, ns[1..]) + LookupAll(x, ms))
          == [Lookup(x, ns[0])] + LookupAll(x, ns[1..]) + LookupAll(x, ms);
    }
  }

  lemma {:induction false} UsesTrace(x: Lex, ns: seq<string>, rest: Parts)
    ensures LexTraces(x, UsesThen(ns, rest)) == LookupAll(x, ns) + LexTraces(x, rest)
  {
    if ns == [] {
      assert [] + LexTraces(x, rest) == LexTraces(x, rest);
    } else {
      UsesTrace(x, ns[1..], rest);
      assert LexPart(x, Use(ns[0])) == x && LexTrace(x, Use(ns[0])) == [Lookup(x, ns[0])];
      assert [Lookup(x, ns[0])] + (LookupAll(x, ns[1..]) + LexTraces(x, rest))
          == [Lookup(x, ns[0])] + LookupAll(x, ns[1..]) + LexTraces(x, rest);
    }
  }

  /** What the names of a statement mean. */
  function StmtTrace(x: Lex, st: Stmt): Trace
    decreases st
  {
    match st
    case Set(n, e) => LookupAll(x, Uses(e) + [n])
    case Do(e) => LookupAll(x, Uses(e))
    case Compound(items) => LexTraces(x, ItemsParts(items))
    case Give(ret) => LookupAll(x, InitUses(ret))
    case Choose(c, t, f) =>
      LookupAll(x, Uses(c)) + StmtTrace(x, t) + if f.Some? then StmtTrace(StmtLex(x, t), f.value) else []
    case Loop(c, body) => LookupAll(x, Uses(c)) + StmtTrace(x, body)
    case _ => []
  }

  lemma {:induction false} StmtTraces(x: Lex, st: Stmt, rest: Parts)
    ensures LexTraces(x, StmtParts(st, rest)) == StmtTrace(x, st) + LexTraces(StmtLex(x, st), rest)
    decreases st
  {
    match st
    case Set(n, e) => UsesTrace(x, Uses(e) + [n], rest);
    case Do(e) => UsesTrace(x, Uses(e), rest);
    case Compound(items) =>
    case Give(ret) => UsesTrace(x, InitUses(ret), rest);
    case Choose(c, t, f) =>
      var more := if f.Some? then StmtParts(f.value, rest) else rest;
      UsesTrace(x, Uses(c), StmtParts(t, more));
      StmtTraces(x, t, more);
      if f.Some? { StmtTraces(StmtLex(x, t), f.value, rest); }
      var a, b, y := LookupAll(x, Uses(c)), StmtTrace(x, t), StmtLex(x, st);
      if f.Some? {
        Regroup(a, b, StmtTrace(StmtLex(x, t), f.value), LexTraces(y, rest));
      } else {
        Regroup(a, b, [], LexTraces(y, rest));
      }
    case Loop(c, body) =>
      UsesTrace(x, Uses(c), StmtParts(body, rest));
      StmtTraces(x, body, rest);
      Regroup(LookupAll(x, Uses(c)), StmtTrace(x, body), [], LexTraces(StmtLex(x, st), rest));
    case _ => assert [] + LexTraces(x, rest) == LexTraces(x, rest);
  }

  lemma Regroup(a: Trace, b: Trace, c: Trace, d: Trace)
    ensures a + (b + (c + d)) == (a + b + c) + d && a + (b + d) == (a + b) + d && a + b + [] == a + b
  {
  }

  // ----- reading -----

  lemma NextDrop(a: Option<nat>, rest: Trace)
    ensures Next([a] + rest) == a && Drop([a] + rest) == rest
  {
  }

  lemma {:induction false} ExpRead(k: Meanings, x: Lex, e: Exp, rest: Trace)
    ensures ReadExp(k, e, LookupAll(x, Uses(e)) + rest) == (LexExp(k, x, e), rest)
    decreases e, 1
  {
    hide Lookup, SymbolOf, CalleeOf;
    match e
    case Number(_) => assert [] + rest == rest;
    case Name(n) =>
      OneLookup(x, n);
      NextDrop(Lookup(x, n), rest);
    case Apply(f, args) =>
      LookupJoin(x, [f], ArgsUses(args));
      OneLookup(x, f);
      Regroup([Lookup(x, f)], LookupAll(x, ArgsUses(args)), [], rest);
      NextDrop(Lookup(x, f), LookupAll(x, ArgsUses(args)) + rest);
      ArgsRead(k, x, args, rest);
    case Same(e0) => ExpRead(k, x, e0, rest);
    case Minus(e0) => ExpRead(k, x, e0, rest);
    case Opposite(e0) => ExpRead(k, x, e0, rest);
    case Arith(_, l, r) => BothRead(k, x, e, l, r, rest);
    case Logical(_, l, r) => BothRead(k, x, e, l, r, rest);
  }

  lemma OneLookup(x: Lex, n: string)
    ensures LookupAll(x, [n]) == [Lookup(x, n)]
  {
    assert [n][1..] == [] && LookupAll(x, []) == [];
  }

  lemma {:induction false} BothRead(k: Meanings, x: Lex, e: Exp, l: Exp, r: Exp, rest: Trace)
    requires (e.Arith? || e.Logical?) && l == e.l && r == e.r
    ensures var (a, tr1) := ReadExp(k, l, LookupAll(x, Uses(l) + Uses(r)) + rest);
            a == LexExp(k, x, l) && ReadExp(k, r, tr1) == (LexExp(k, x, r), rest)
    decreases e, 0
  {
    LookupJoin(x, Uses(l), Uses(r));
    Regroup(LookupAll(x, Uses(l)), LookupAll(x, Uses(r)), [], rest);
    ExpRead(k, x, l, LookupAll(x, Uses(r)) + rest);
    ExpRead(k, x, r, rest);
  }

  lemma {:induction false} ArgsRead(k: Meanings, x: Lex, es: Exps, rest: Trace)
    ensures ReadArgs(k, es, LookupAll(x, ArgsUses(es)) + rest) == (LexArgs(k, x, es), rest)
    decreases es
  {
    if es.NoExps? {
      assert [] + rest == rest;
    } else {
      LookupJoin(x, Uses(es.head), ArgsUses(es.tail));
      Regroup(LookupAll(x, Uses(es.head)), LookupAll(x, ArgsUses(es.tail)), [], rest);
      ExpRead(k, x, es.head, LookupAll(x, ArgsUses(es.tail)) + rest);
      ArgsRead(k, x, es.tail, rest);
    }
  }

  lemma InitRead(k: Meanings, x: Lex, init: Option<Exp>, rest: Trace)
    ensures ReadInit(k, init, LookupAll(x, InitUses(init)) + rest) == (LexInit(k, x, init), rest)
  {
    if init.Some? { ExpRead(k, x, init.value, rest); } else { assert [] + rest == rest; }
  }

  lemma {:induction false} StmtRead(k: Meanings, x: Lex, st: Stmt, rest: Trace)
    ensures ReadStmt(k, st, StmtTrace(x, st) + rest) == (LexStmt(k, x, st), rest)
    decreases st
  {
    hide ReadExp, LexExp, LookupAll;
    match st
    case Set(n, e) =>
      LookupJoin(x, Uses(e), [n]);
      OneLookup(x, n);
      Regroup(LookupAll(x, Uses(e)), [Lookup(x, n)], [], rest);
      ExpRead(k, x, e, [Lookup(x, n)] + rest);
      NextDrop(Lookup(x, n), rest);
    case Do(e) => ExpRead(k, x, e, rest);
    case Compound(items) => ItemsRead(k, x, items, rest);
    case Give(ret) => InitRead(k, x, ret, rest);
    case Choose(c, t, f) =>
      var a, b := LookupAll(x, Uses(c)), StmtTrace(x, t);
      var d := if f.Some? then StmtTrace(StmtLex(x, t), f.value) else [];
      Regroup(a, b, d, rest);
      ExpRead(k, x, c, b + (d + rest));
      StmtRead(k, x, t, d + rest);
      if f.Some? { StmtRead(k, StmtLex(x, t), f.value, rest); } else { assert [] + rest == rest; }
    case Loop(c, body) =>
      Regroup(LookupAll(x, Uses(c)), StmtTrace(x, body), [], rest);
      ExpRead(k, x, c, StmtTrace(x, body) + rest);
      StmtRead(k, x, body, rest);
    case _ => assert [] + rest == rest;
  }

  lemma {:induction false} ItemsRead(k: Meanings, x: Lex, items: Items, rest: Trace)
    ensures ReadItems(k, items, LexTraces(x, ItemsParts(items)) + rest) == (LexItems(k, x, items), rest)
    decreases items
  {
    hide ReadExp, LexExp, LookupAll, ReadStmt, LexStmt, StmtTrace;
    match items
    case NoItems => assert [] + rest == rest;
    case Items(Constants(defs), more) =>
      var y := LexDefs(x, DefsOf(defs));
      assert [] + LexTraces(y, ItemsParts(more)) == LexTraces(y, ItemsParts(more));
      ItemsRead(k, y, more, rest);
    case Items(Variables(defs), more) =>
      var y := LexDefs(x, DefsOf(defs));
      Regroup(LexAnswers(y, DefsOf(defs)), LexTraces(y, ItemsParts(more)), [], rest);
      VarsRead(k, y, defs, LexTraces(y, ItemsParts(more)) + rest);
      ItemsRead(k, y, more, rest);
    case Items(Statement(st), more) =>
      if st.Give? {
        StmtTraces(x, st, Parts(Return, ItemsParts(more)));
        assert LexTraces(StmtLex(x, st), Parts(Return, ItemsParts(more))) == [];
        assert StmtTrace(x, st) + [] == StmtTrace(x, st);
        StmtRead(k, x, st, rest);
      } else {
        var y := StmtLex(x, st);
        StmtTraces(x, st, ItemsParts(more));
        Regroup(StmtTrace(x, st), LexTraces(y, ItemsParts(more)), [], rest);
        StmtRead(k, x, st, LexTraces(y, ItemsParts(more)) + rest);
        ItemsRead(k, y, more, rest);
      }
  }

  lemma {:induction false} VarsRead(k: Meanings, x: Lex, defs: NamedDefs, rest: Trace)
    ensures ReadVars(k, defs, LexAnswers(x, DefsOf(defs)) + rest) == (LexVars(k, x, defs), rest)
    decreases defs
  {
    hide ReadExp, LexExp, LookupAll;
    var a, b := [Lookup(x, defs.def.name)], LookupAll(x, InitUses(defs.def.init));
    var c := if defs.One? then [] else LexAnswers(x, DefsOf(defs.rest));
    assert LexAnswers(x, DefsOf(defs)) == a + b + c;
    Regroup(a, b, c, rest);
    NextDrop(Lookup(x, defs.def.name), b + (c + rest));
    InitRead(k, x, defs.def.init, c + rest);
    if defs.One? { assert [] + rest == rest; } else { VarsRead(k, x, defs.rest, rest); }
  }

  // ----- whole programs -----

  lemma {:induction false} ReadAll(x: Lex, ns: seq<string>)
    ensures |LookupAll(x, ns)| == |ns|
  {
    if ns != [] {
      ReadAll(x, ns[1..]);
    }
  }

  lemma FunctionRead(k: Meanings, x: Lex, g: Declaration, rest: Trace)
    requires g.Function?
    ensures ReadFunction(k, g, LexGlobalTrace(x, Skeleton(g)) + rest) == (LexFunction(k, x, g), rest)
  {
    hide LookupAll, ReadItems, LexItems, Lookup;
    var y := Declare(x, g.name);
    var z := LexParams(y, g.params);
    var a, b, c := Lookup(y, g.name), LookupAll(z, g.params), LexTraces(z, ItemsParts(g.body));
    assert LexGlobalTrace(x, Skeleton(g)) == [a] + b + c;
    Regroup([a], b, c, rest);
    NextDrop(a, b + (c + rest));
    ReadAll(z, g.params);
    assert (b + (c + rest))[..|b|] == b && (b + (c + rest))[|b|..] == c + rest;
    ItemsRead(k, z, g.body, rest);
  }

  lemma {:induction false} ProgramRead(k: Meanings, x: Lex, gs: seq<Declaration>, rest: Trace)
    ensures ReadProgram(k, gs, LexGlobalTraces(x, Skeletons(gs)) + rest) == (LexProgram(k, x, gs), rest)
    decreases |gs|
  {
    hide LexGlobalTrace, LexGlobal, ReadFunction, LexFunction, Skeleton, ReadVars;
    if gs == [] {
      assert [] + rest == rest;
    } else {
      var g, y := gs[0], LexGlobal(x, Skeleton(gs[0]));
      assert Skeletons(gs)[0] == Skeleton(g) && Skeletons(gs)[1..] == Skeletons(gs[1..]);
      var a, b := LexGlobalTrace(x, Skeleton(g)), LexGlobalTraces(y, Skeletons(gs[1..]));
      Regroup(a, b, [], rest);
      ProgramRead(k, y, gs[1..], rest);
      GlobalRead(k, x, g, b + rest);
      assert LexGlobalTraces(x, Skeletons(gs)) == a + b;
      assert [] + LexProgram(k, y, gs[1..]) == LexProgram(k, y, gs[1..]);
    }
  }

  /** Global constants leave no answers and global variables theirs; only functions are kept. */
  lemma GlobalRead(k: Meanings, x: Lex, g: Declaration, rest: Trace)
    ensures g.GlobalConstants? ==> LexGlobalTrace(x, Skeleton(g)) + rest == rest
    ensures g.GlobalVariables? ==> ReadVars(k, g.defs, LexGlobalTrace(x, Skeleton(g)) + rest).1 == rest
    ensures g.Function? ==> ReadFunction(k, g, LexGlobalTrace(x, Skeleton(g)) + rest) == (LexFunction(k, x, g), rest)
  {
    hide LookupAll, ReadVars, ReadFunction, LexFunction;
    match g
    case GlobalConstants(_) => assert [] + rest == rest;
    case GlobalVariables(defs) => VarsRead(k, LexGlobal(x, Skeleton(g)), defs, rest);
    case Function(_, _, _, _) => FunctionRead(k, x, g, rest);
  }

  /** The second pass puts the declarations in place that lexical scoping does, in every accepted program that is
      faithful and quiet, for any hash function. */
  lemma ReplayResolves(h: Hash, lib: seq<string>, k: Meanings, gs: seq<Declaration>, f: Table)
    requires BuildGlobals(h, Initially(h, lib), Skeletons(gs)) == Some(f)
    requires FaithfulGlobals(Skeletons(gs)) && Quiet(Skeletons(gs))
    ensures var q := ReplayGlobals(h, f, Skeletons(gs));
            q.Some? && ReadProgram(k, gs, q.value.trace).0 == LexProgram(k, LexParams(Lex([], []), lib), gs)
  {
    hide BuildGlobals, ReplayGlobals, ReadProgram, LexProgram, LexGlobalTraces, FaithfulGlobals, Quiet, Initially,
         LexParams;
    ReplayExactly(h, lib, Skeletons(gs), f);
    var x := LexParams(Lex([], []), lib);
    ProgramRead(k, x, gs, []);
    assert LexGlobalTraces(x, Skeletons(gs)) + [] == LexGlobalTraces(x, Skeletons(gs));
  }

  /** The program by lexical scoping, every declaration with what the first pass says of it. */
  function Resolved(lib: Prelude, gs: seq<Declaration>, run: Source.Library): Programs.SourceProgram
  {
    Programs.SourceProgram(LexProgram(KindsOf(lib, gs), lib.Env(), gs), run)
  }

  /** What a parsed program must be: the table is built, nothing skipped opens a scope, no later global hides a name,
      and names are used as what they are declared to be. */
  ghost predicate WellNamed(h: Hash, lib: Prelude, gs: seq<Declaration>, f: Table)
  {
    && lib.Valid() && BuildGlobals(h, Initially(h, lib.names), Skeletons(gs)) == Some(f)
    && FaithfulGlobals(Skeletons(gs)) && Quiet(Skeletons(gs))
    && ProgramNamed(KindsOf(lib, gs), lib.Env(), gs)
  }

  /** The program the second pass puts together from its answers. */
  function Replaid(h: Hash, lib: Prelude, gs: seq<Declaration>, f: Table, run: Source.Library): Programs.SourceProgram
    requires ReplayGlobals(h, f, Skeletons(gs)).Some?
  {
    var trace := ReplayGlobals(h, f, Skeletons(gs)).value.trace;
    Programs.SourceProgram(ReadProgram(KindsOf(lib, gs), gs, trace).0, run)
  }

  /** What the second pass puts together means what the program with names means: every call, to any depth. */
  lemma ResolvedByReplay(h: Hash, lib: Prelude, gs: seq<Declaration>, f: Table, run: Source.Library, depth: nat,
                         callee: Source.Callee, args: seq<Word>, w: Source.World)
    requires WellNamed(h, lib, gs, f) && Programs.AllWellNested(Resolved(lib, gs, run))
    ensures ReplayGlobals(h, f, Skeletons(gs)).Some? && Replaid(h, lib, gs, f, run) == Resolved(lib, gs, run)
    ensures Programs.CallSource(Replaid(h, lib, gs, f, run), depth, callee, args, w) ==
            CallNamed(NamedOf(lib, gs, run), depth, callee, args, w)
  {
    hide BuildGlobals, ReplayGlobals, ReadProgram, LexProgram, KindsOf, ProgramNamed, Quiet, FaithfulGlobals,
         Programs.AllWellNested, CallNamed, Programs.CallSource, NamedOf, Skeletons;
    ReplayResolves(h, lib.names, KindsOf(lib, gs), gs, f);
    ResolvedMeansTheSame(lib, gs, run, depth, callee, args, w);
  }

  /** The lines the compiler prints: the second pass over the table f resolves, lowers and generates code. */
  function Compiled(h: Hash, lib: Prelude, gs: seq<Declaration>, f: Table, run: Source.Library): seq<Riscv.Line>
    requires ReplayGlobals(h, f, Skeletons(gs)).Some?
  {
    Codegen.ProgramLines(Programs.LowerProgram(Replaid(h, lib, gs, f, run)).funcs)
  }

  lemma SourceNested(p: Programs.SourceProgram)
    requires EndToEnd.SourceOk(p)
    ensures Programs.AllWellNested(p)
  {
  }

  /** What compiling needs besides. */
  ghost predicate Compilable(lib: Prelude, gs: seq<Declaration>, run: Source.Library, callee: Source.Callee)
  {
    var p := Resolved(lib, gs, run);
    && EndToEnd.SourceOk(p) && EndToEnd.SafeToEmit(Programs.LowerProgram(p))
    && LoweringLocal.CalleeOk(p.funcs, callee) && Programs.Find(p.funcs, callee.f).Some?
  }

  /** From names to the machine: what the compiler prints for a parsed program, resolved through its own symbol table,
      does what the program with names does, whenever a call of it returns. */
  lemma CompiledFromNames(h: Hash, lib: Prelude, gs: seq<Declaration>, f: Table, run: Source.Library, depth: nat,
                          callee: Source.Callee, args: seq<Word>, w: Source.World, w1: Source.World, v: Word,
                          env: Riscv.Env, top: int, m: Riscv.Machine) returns (u: Riscv.Machine)
    requires WellNamed(h, lib, gs, f) && Compilable(lib, gs, run, callee)
    requires CallNamed(NamedOf(lib, gs, run), depth, callee, args, w) == Source.Returns(w1, v)
    requires env.lib == run && CodegenEntry.EnvOk(env, top) && CodegenEntry.EntryOk(env, top, args, w, m)
    requires ReplayGlobals(h, f, Skeletons(gs)).Some? ==>
               m.pc == Riscv.Find(Compiled(h, lib, gs, f, run), Riscv.FuncLabel(callee.f))
    ensures ReplayGlobals(h, f, Skeletons(gs)).Some? && Riscv.MReaches(Compiled(h, lib, gs, f, run), env, m, u)
    ensures u.pc == Riscv.Get(m, Riscv.Ra) && !u.trapped && Riscv.Get(u, Riscv.Sp) == Riscv.Get(m, Riscv.Sp)
    ensures !callee.isVoid ==> Riscv.Get(u, Riscv.A(0)) == v
    ensures u.io == w1.io && forall g :: g in w1.globals ==> Riscv.Peek(u, env.address(g)) == w1.globals[g]
    ensures forall x :: Riscv.Get(m, Riscv.Sp) + CodegenCalls.ArgBytes(|args|) <= x < top ==>
              Riscv.Peek(u, x) == Riscv.Peek(m, x)
  {
    assert lib.Valid();
    hide WellNamed, EndToEnd.SourceOk, EndToEnd.SafeToEmit, LexProgram, KindsOf, Replaid, NamedOf, CallNamed,
         ReplayGlobals, Programs.CallSource, Riscv.MReaches, Codegen.ProgramLines, CodegenEntry.EntryOk,
         CodegenEntry.EnvOk, Riscv.Find, Skeletons;
    SourceNested(Resolved(lib, gs, run));
    ResolvedByReplay(h, lib, gs, f, run, depth, callee, args, w);
    u := EndToEnd.CompiledFunctionRuns(Resolved(lib, gs, run), depth, callee, args, w, w1, v, env, top, m);
  }

  ghost predicate SameAnswers(p: Programs.SourceProgram, n: NamedProgram, callee: Source.Callee, args: seq<Word>,
                              w: Source.World)
  {
    forall depth: nat :: Programs.CallSource(p, depth, callee, args, w) == CallNamed(n, depth, callee, args, w)
  }

  lemma StopsAlike(p: Programs.SourceProgram, n: NamedProgram, callee: Source.Callee, args: seq<Word>, w: Source.World,
                   env: Riscv.Env, top: int, m: Riscv.Machine)
    requires EndToEnd.SourceOk(p) && EndToEnd.SafeToEmit(Programs.LowerProgram(p))
             && LoweringLocal.CalleeOk(p.funcs, callee) && Programs.Find(p.funcs, callee.f).Some?
    requires SameAnswers(p, n, callee, args, w)
    requires forall depth: nat :: CallNamed(n, depth, callee, args, w) != Source.Fails
    requires env.lib == p.lib && CodegenEntry.EnvOk(env, top) && CodegenEntry.EntryOk(env, top, args, w, m)
    requires var code := Codegen.ProgramLines(Programs.LowerProgram(p).funcs);
             m.pc == Riscv.Find(code, Riscv.FuncLabel(callee.f)) && !(0 <= Riscv.Get(m, Riscv.Ra) < |code|)
    ensures EndToEnd.Stops(Codegen.ProgramLines(Programs.LowerProgram(p).funcs), env, m) <==>
            exists depth: nat :: CallNamed(n, depth, callee, args, w).Returns?
  {
    hide EndToEnd.SourceOk, EndToEnd.SafeToEmit, CallNamed, Programs.CallSource, Codegen.ProgramLines,
         CodegenEntry.EntryOk, CodegenEntry.EnvOk, Riscv.Find, EndToEnd.Stops;
    EndToEnd.CompiledFunctionStopsExactly(p, callee, args, w, env, top, m);
    if EndToEnd.ReturnsAtSomeDepth(p, callee, args, w) {
      var depth: nat :| Programs.CallSource(p, depth, callee, args, w).Returns?;
      assert CallNamed(n, depth, callee, args, w).Returns?;
    }
    if depth: nat :| CallNamed(n, depth, callee, args, w).Returns? {
      assert Programs.CallSource(p, depth, callee, args, w).Returns?;
    }
  }

  /** And it stops exactly when the call returns at some depth, for a program that never fails. */
  lemma CompiledNamesStopExactly(h: Hash, lib: Prelude, gs: seq<Declaration>, f: Table, run: Source.Library,
                                 callee: Source.Callee, args: seq<Word>, w: Source.World, env: Riscv.Env, top: int,
                                 m: Riscv.Machine)
    requires WellNamed(h, lib, gs, f) && Compilable(lib, gs, run, callee)
    requires forall depth: nat :: CallNamed(NamedOf(lib, gs, run), depth, callee, args, w) != Source.Fails
    requires env.lib == run && CodegenEntry.EnvOk(env, top) && CodegenEntry.EntryOk(env, top, args, w, m)
    requires ReplayGlobals(h, f, Skeletons(gs)).Some? ==>
               var code := Compiled(h, lib, gs, f, run);
               m.pc == Riscv.Find(code, Riscv.FuncLabel(callee.f)) && !(0 <= Riscv.Get(m, Riscv.Ra) < |code|)
    ensures ReplayGlobals(h, f, Skeletons(gs)).Some?
    ensures EndToEnd.Stops(Compiled(h, lib, gs, f, run), env, m) <==>
            exists depth: nat :: CallNamed(NamedOf(lib, gs, run), depth, callee, args, w).Returns?
  {
    assert lib.Valid();
    var p, n := Resolved(lib, gs, run), NamedOf(lib, gs, run);
    hide WellNamed, EndToEnd.SourceOk, EndToEnd.SafeToEmit, LexProgram, KindsOf, Replaid, NamedOf, CallNamed,
         ReplayGlobals, Programs.CallSource, EndToEnd.Stops, Codegen.ProgramLines, CodegenEntry.EntryOk,
         CodegenEntry.EnvOk, Riscv.Find, Skeletons;
    SourceNested(p);
    ResolvedByReplay(h, lib, gs, f, run, 0, callee, args, w);
    assert SameAnswers(p, n, callee, args, w) by {
      forall depth: nat
        ensures Programs.CallSource(p, depth, callee, args, w) == CallNamed(n, depth, callee, args, w)
      {
        ResolvedByReplay(h, lib, gs, f, run, depth, callee, args, w);
      }
    }
    hide SameAnswers;
    StopsAlike(p, n, callee, args, w, env, top, m);
  }
}
