/**
 * Whole programs with names: what the first pass says of every declaration, and that calls mean the same once
 * declarations are in the place of names.
 */
module NamesPrograms {
  import opened Words
  import opened Names
  import opened NamesExec
  import opened NamesMeaning
  import opened NamesRun
  import opened SymbolsBuild
  import Programs
  import Source
  import Symbols

  // ----- how many names -----

  lemma {:induction false} UsesDeclareNothing(x: Lex, ns: seq<string>, rest: Symbols.Parts)
    ensures LexParts(x, UsesThen(ns, rest)) == LexParts(x, rest)
  {
    if ns != [] {
      UsesDeclareNothing(x, ns[1..], rest);
    }
  }

  /** A statement among the parts of its block. */
  lemma {:induction false} StmtInParts(x: Lex, st: Stmt, rest: Symbols.Parts)
    ensures LexParts(x, StmtParts(st, rest)) == LexParts(StmtLex(x, st), rest)
    decreases st
  {
    match st
    case Set(n, e) => UsesDeclareNothing(x, Uses(e) + [n], rest);
    case Do(e) => UsesDeclareNothing(x, Uses(e), rest);
    case Compound(_) =>
    case Give(ret) => UsesDeclareNothing(x, InitUses(ret), rest);
    case Choose(c, t, f) =>
      var more := if f.Some? then StmtParts(f.value, rest) else rest;
      UsesDeclareNothing(x, Uses(c), StmtParts(t, more));
      StmtInParts(x, t, more);
      if f.Some? { StmtInParts(StmtLex(x, t), f.value, rest); }
    case Loop(c, body) =>
      UsesDeclareNothing(x, Uses(c), StmtParts(body, rest));
      StmtInParts(x, body, rest);
    case _ =>
  }

  lemma {:induction false} DefsCounted(x: Lex, defs: NamedDefs)
    ensures |LexDefs(x, DefsOf(defs)).names| == |x.names| + DefCount(defs)
    decreases defs
  {
    if defs.Many? { DefsCounted(Declare(x, defs.def.name), defs.rest); }
  }

  lemma {:induction false} StmtCounted(x: Lex, st: Stmt)
    ensures |StmtLex(x, st).names| == |x.names| + StmtCount(st)
    decreases st
  {
    match st
    case Compound(items) => ItemsCounted(x, items);
    case Choose(_, t, f) =>
      StmtCounted(x, t);
      if f.Some? { StmtCounted(StmtLex(x, t), f.value); }
    case Loop(_, body) => StmtCounted(x, body);
    case _ =>
  }

  lemma {:induction false} ItemsCounted(x: Lex, items: Items)
    ensures |LexParts(x, ItemsParts(items)).names| == |x.names| + ItemCount(items)
    decreases items
  {
    if items.Items? {
      ItemsCounted(ItemLex(x, items.head), items.tail);
      match items.head {
        case Constants(defs) => DefsCounted(x, defs);
        case Variables(defs) => DefsCounted(x, defs);
        case Statement(st) =>
          StmtCounted(x, st);
          StmtInParts(x, st, if st.Give? then Symbols.Parts.Parts(Symbols.Return, ItemsParts(items.tail))
                             else ItemsParts(items.tail));
      }
    }
  }

  lemma {:induction false} ParamsCounted(x: Lex, ps: seq<string>)
    ensures |LexParams(x, ps).names| == |x.names| + |ps|
  {
    if ps != [] { ParamsCounted(x, ps[..|ps| - 1]); }
  }

  lemma GlobalCounted(x: Lex, g: Declaration)
    ensures |LexGlobal(x, Skeleton(g)).names| == |x.names| + Count(g)
  {
    match g
    case GlobalConstants(defs) => DefsCounted(x, defs);
    case GlobalVariables(defs) => DefsCounted(x, defs);
    case Function(_, f, ps, body) =>
      ParamsCounted(Declare(x, f), ps);
      ItemsCounted(LexParams(Declare(x, f), ps), body);
  }

  // ----- functions -----

  predicate DifferentNames(ns: seq<string>) { forall i, j :: 0 <= i < j < |ns| ==> ns[i] != ns[j] }

  function Following(d: nat, n: nat): seq<nat> { seq(n, i requires 0 <= i < n => d + i) }

  predicate NoCells(scopes: Scopes) { forall i :: 0 <= i < |scopes| ==> !scopes[i].what.Cell? }

  predicate ParamsSay(k: Meanings, d: nat, n: nat) { forall j :: d <= j < d + n ==> k(j) == LocalVar }

  lemma {:induction false} ParamsRep(k: Meanings, x: Lex, scopes: Scopes, ps: seq<string>, args: seq<Word>)
    requires Rep(k, x, scopes, map[]) && |ps| == |args| && ParamsSay(k, |x.names|, |ps|)
    ensures Rep(k, LexParams(x, ps), scopes + Parameters(ps, args),
                Source.BindParams(Following(|x.names|, |ps|), args))
    decreases |ps|
  {
    if ps == [] {
      assert scopes + Parameters(ps, args) == scopes;
    } else {
      var n := |ps| - 1;
      var d := |x.names|;
      ParamsRep(k, x, scopes, ps[..n], args[..n]);
      ParamsCounted(x, ps[..n]);
      hide Rep;
      var most, locals := scopes + Parameters(ps[..n], args[..n]), Source.BindParams(Following(d, n), args[..n]);
      assert Following(d, n + 1)[..n] == Following(d, n) && Following(d, n + 1)[n] == d + n;
      assert Source.BindParams(Following(d, n + 1), args) == locals[d + n := args[n]];
      RepBind(k, LexParams(x, ps[..n]), most, locals, ps[n], Cell(Some(args[n])), locals[d + n := args[n]]);
      assert scopes + Parameters(ps, args) == most + [Binding(ps[n], Cell(Some(args[n])))];
    }
  }

  lemma {:induction false} ParamFound(x: Lex, ps: seq<string>, i: nat)
    requires Numbered(x) && DifferentNames(ps) && i < |ps|
    ensures Lookup(LexParams(x, ps), ps[i]) == Some(|x.names| + i)
    decreases |ps|
  {
    var n := |ps| - 1;
    ParamsNumbered(x, ps[..n]);
    ParamsCounted(x, ps[..n]);
    LookupDeclare(LexParams(x, ps[..n]), ps[n], ps[i]);
    if i < n { ParamFound(x, ps[..n], i); }
  }

  lemma {:induction false} ParamsNumbered(x: Lex, ps: seq<string>)
    requires Numbered(x)
    ensures Numbered(LexParams(x, ps))
  {
    if ps != [] {
      ParamsNumbered(x, ps[..|ps| - 1]);
      LookupDeclare(LexParams(x, ps[..|ps| - 1]), ps[|ps| - 1], "");
    }
  }

  lemma {:induction false} IdsAt(x: Lex, ns: seq<string>, i: nat)
    requires i < |ns|
    ensures |Ids(LookupAll(x, ns))| == |ns| && Ids(LookupAll(x, ns))[i] == Id(Lookup(x, ns[i]))
  {
    if |ns| == 1 {
      assert LookupAll(x, ns[1..]) == [];
      assert LookupAll(x, ns) == [Lookup(x, ns[0])];
      assert LookupAll(x, ns)[1..] == [];
    } else {
      var rest := LookupAll(x, ns[1..]);
      assert ([Lookup(x, ns[0])] + rest)[1..] == rest;
      IdsAt(x, ns[1..], if i > 0 then i - 1 else 0);
    }
  }

  lemma IsFollowing(ids: seq<nat>, d: nat, n: nat)
    requires |ids| == n && forall i: nat :: i < n ==> ids[i] == d + i
    ensures ids == Following(d, n)
  {
  }

  lemma NoIds(x: Lex)
    ensures Ids(LookupAll(x, [])) == []
  {
  }

  /** The parameters have the numbers after the function's own. */
  lemma ParamIds(x: Lex, ps: seq<string>)
    requires Numbered(x) && DifferentNames(ps)
    ensures Ids(LookupAll(LexParams(x, ps), ps)) == Following(|x.names|, |ps|)
  {
    hide Ids, LookupAll, LexParams, Lookup, DifferentNames, Numbered, Following;
    var z := LexParams(x, ps);
    if ps == [] { NoIds(z); } else { IdsAt(z, ps, 0); }
    forall i: nat | i < |ps| ensures Ids(LookupAll(z, ps))[i] == |x.names| + i {
      IdsAt(z, ps, i);
      ParamFound(x, ps, i);
    }
    IsFollowing(Ids(LookupAll(z, ps)), |x.names|, |ps|);
  }

  predicate GlobalNamed(k: Meanings, x: Lex, g: Declaration)
  {
    match g
    case GlobalConstants(defs) => ConstsNamed(k, x, defs)
    case GlobalVariables(_) => true
    case Function(_, f, ps, body) => DifferentNames(ps) && ItemsNamed(k, LexParams(Declare(x, f), ps), body)
  }

  predicate GlobalSays(k: Meanings, x: Lex, g: Declaration)
  {
    match g
    case GlobalConstants(defs) => ConstsSay(k, x, defs)
    case GlobalVariables(defs) => VarsSay(k, |x.names|, GlobalVar, defs)
    case Function(isVoid, f, ps, body) =>
      && k(|x.names|) == Subroutine(isVoid) && ParamsSay(k, |x.names| + 1, |ps|)
      && ItemsSay(k, LexParams(Declare(x, f), ps), body)
  }

  /** A function of the program, with names and with numbers. */
  predicate FitsAs(k: Meanings, x: Lex, g: Declaration, c: Closure, fd: Source.FuncDef)
  {
    && g.Function? && c == Closure(g.isVoid, g.params, g.body, c.scopes)
    && Rep(k, Declare(x, g.name), c.scopes, map[]) && NoCells(c.scopes)
    && GlobalNamed(k, x, g) && GlobalSays(k, x, g) && fd == LexFunction(k, x, g).1
  }

  lemma ClosureRuns(o: Source.Oracle, q: Source.Oracle, fuel: nat, k: Meanings, x: Lex, g: Declaration, c: Closure,
                    fd: Source.FuncDef, args: seq<Word>, w: Source.World)
    requires FitsAs(k, x, g, c, fd) && SameCalls(o, q) && |args| == |c.params|
    ensures |fd.params| == |c.params| && fd.isVoid == c.isVoid
    ensures RunClosure(o, fuel, c, args, w) == Source.RunFunc(q, fuel, fd, args, w)
  {
    hide Rep, ItemsNamed, ItemsSay, SameCalls, RunItems, Source.ExecItems, LexItems, AlikeState;
    var y := Declare(x, g.name);
    var z := LexParams(y, g.params);
    RepNumbered(k, y, c.scopes, map[]);
    ParamIds(y, g.params);
    assert |y.names| == |x.names| + 1;
    ParamsRep(k, y, c.scopes, g.params, args);
    var scopes, locals := c.scopes + Parameters(g.params, args), Source.BindParams(fd.params, args);
    ItemsRun(o, q, fuel, k, z, scopes, g.body, Source.Store(locals, w));
    hide Alike;
    EndsSame(k, z, c.isVoid, RunItems(o, fuel, g.body, State(scopes, w)),
             Source.ExecItems(q, fuel, fd.body, Source.Store(locals, w)));
  }

  /** Alike ends are the same to the caller. */
  lemma EndsSame(k: Meanings, x: Lex, isVoid: bool, r: Outcome, t: Source.Outcome)
    requires Alike(k, x, r, t)
    ensures Source.Conclude(isVoid, t) ==
            match r
            case Normal(s) => if isVoid then Some(Source.Done(None, s.w)) else Some(Source.FellOff)
            case Returned(v, w1) => Some(Source.Done(v, w1))
            case OutOfFuel => None
            case _ => Some(Source.Stuck)
  {
    hide Rep;
  }

  // ----- programs -----

  ghost predicate Fits(k: Meanings, c: Closure, fd: Source.FuncDef)
  {
    exists x: Lex, g: Declaration :: FitsAs(k, x, g, c, fd)
  }

  predicate ProgramNamed(k: Meanings, x: Lex, gs: seq<Declaration>)
    decreases |gs|
  {
    gs != [] ==> GlobalNamed(k, x, gs[0]) && ProgramNamed(k, LexGlobal(x, Skeleton(gs[0])), gs[1..])
  }

  predicate ProgramSays(k: Meanings, x: Lex, gs: seq<Declaration>)
    decreases |gs|
  {
    gs != [] ==> GlobalSays(k, x, gs[0]) && ProgramSays(k, LexGlobal(x, Skeleton(gs[0])), gs[1..])
  }

  lemma {:induction false} SharedRep(k: Meanings, x: Lex, scopes: Scopes, defs: NamedDefs)
    requires Rep(k, x, scopes, map[]) && NoCells(scopes) && VarsSay(k, |x.names|, GlobalVar, defs)
    ensures var more := scopes + SharedFrom(|x.names|, defs);
            Rep(k, LexDefs(x, DefsOf(defs)), more, map[]) && NoCells(more)
    decreases defs
  {
    hide Rep;
    var b := Binding(defs.def.name, Shared(|x.names|));
    RepBind(k, x, scopes, map[], b.name, b.what, map[]);
    if defs.Many? {
      SharedRep(k, Declare(x, b.name), scopes + [b], defs.rest);
      var rest := SharedFrom(|x.names| + 1, defs.rest);
      assert scopes + ([b] + rest) == scopes + [b] + rest;
    } else {
      assert [b] + [] == [b];
    }
  }

  lemma GlobalBinds(k: Meanings, x: Lex, scopes: Scopes, g: Declaration)
    requires Rep(k, x, scopes, map[]) && NoCells(scopes) && GlobalNamed(k, x, g) && GlobalSays(k, x, g)
    ensures var b := BindGlobal(scopes, |x.names|, g);
            b.Some? && NoCells(b.value) && Rep(k, LexGlobal(x, Skeleton(g)), b.value, map[])
            && (g.Function? ==> Rep(k, Declare(x, g.name), b.value, map[]))
  {
    hide Rep, ItemsNamed, ItemsSay, ConstsNamed, ConstsSay, VarsSay;
    match g
    case GlobalConstants(defs) => ConstsRun(k, x, scopes, map[], defs);
    case GlobalVariables(defs) => SharedRep(k, x, scopes, defs);
    case Function(isVoid, f, ps, body) =>
      var y := Declare(x, f);
      RepBind(k, x, scopes, map[], f, Routine(|x.names|, isVoid), map[]);
      ParamsGrow(y, ps);
      PartsGrow(LexParams(y, ps), ItemsParts(body));
      RepMore(k, y, LexGlobal(x, Skeleton(g)), scopes + [Binding(f, Routine(|x.names|, isVoid))], map[]);
  }

  lemma {:induction false} ParamsGrow(x: Lex, ps: seq<string>)
    ensures x.names <= LexParams(x, ps).names
  {
    if ps != [] { ParamsGrow(x, ps[..|ps| - 1]); }
  }

  /** Function by function. */
  ghost predicate AllFit(k: Meanings, cs: seq<(nat, Closure)>, fs: seq<(nat, Source.FuncDef)>)
  {
    |cs| == |fs| && forall i :: 0 <= i < |cs| ==> cs[i].0 == fs[i].0 && Fits(k, cs[i].1, fs[i].1)
  }

  lemma {:induction false} ProgramFits(k: Meanings, x: Lex, scopes: Scopes, gs: seq<Declaration>)
    requires Rep(k, x, scopes, map[]) && NoCells(scopes) && ProgramNamed(k, x, gs) && ProgramSays(k, x, gs)
    ensures var cs := Closures(scopes, |x.names|, gs); cs.Some? && AllFit(k, cs.value, LexProgram(k, x, gs))
    decreases |gs|
  {
    hide Rep, GlobalNamed, GlobalSays, BindGlobal, LexGlobal, LexFunction, Fits, NoCells;
    if gs != [] {
      var g, y := gs[0], LexGlobal(x, Skeleton(gs[0]));
      GlobalBinds(k, x, scopes, g);
      GlobalCounted(x, g);
      var more := BindGlobal(scopes, |x.names|, g).value;
      ProgramFits(k, y, more, gs[1..]);
      if g.Function? { FunctionFits(k, x, more, g); }
    }
  }

  lemma FunctionFits(k: Meanings, x: Lex, more: Scopes, g: Declaration)
    requires g.Function? && Rep(k, Declare(x, g.name), more, map[]) && NoCells(more)
    requires GlobalNamed(k, x, g) && GlobalSays(k, x, g)
    ensures Fits(k, Closure(g.isVoid, g.params, g.body, more), LexFunction(k, x, g).1)
    ensures LexFunction(k, x, g).0 == |x.names|
  {
    RepNumbered(k, Declare(x, g.name), more, map[]);
    assert FitsAs(k, x, g, Closure(g.isVoid, g.params, g.body, more), LexFunction(k, x, g).1);
    var y := Declare(x, g.name);
    assert y.env[|y.env| - 1] == |x.names|;
  }

  lemma {:induction false} FindFits(k: Meanings, cs: seq<(nat, Closure)>, fs: seq<(nat, Source.FuncDef)>, f: nat)
    requires AllFit(k, cs, fs)
    ensures Programs.Find(cs, f).Some? <==> Programs.Find(fs, f).Some?
    ensures Programs.Find(cs, f).Some? ==> Fits(k, Programs.Find(cs, f).value, Programs.Find(fs, f).value)
    decreases |cs|
  {
    hide Fits;
    if cs != [] && cs[0].0 != f { FindFits(k, cs[1..], fs[1..], f); }
  }

  /** Calls mean the same, to any depth: results, globals, library calls, and whether they return. */
  lemma {:induction false} CallsAgree(k: Meanings, p: NamedProgram, r: Programs.SourceProgram, depth: nat,
                                      callee: Source.Callee, args: seq<Word>, w: Source.World)
    requires AllFit(k, p.funcs, r.funcs) && r.lib == p.lib && Programs.AllWellNested(r)
    ensures CallNamed(p, depth, callee, args, w) == Programs.CallSource(r, depth, callee, args, w)
    decreases depth
  {
    hide Fits, AllFit, Programs.AllWellNested;
    FindFits(k, p.funcs, r.funcs, callee.f);
    var found := Programs.Find(p.funcs, callee.f);
    if found.Some? {
      var c, fd := found.value, Programs.Find(r.funcs, callee.f).value;
      FitParams(k, c, fd);
      if |args| == |c.params| && depth > 0 {
        var o, q := NamedCalls(p, depth - 1), Programs.SourceCalls(r, depth - 1);
        forall w1, f, vs ensures o(w1, f, vs) == q(w1, f, vs) {
          CallsAgree(k, p, r, depth - 1, f, vs, w1);
        }
        NestedThere(r, callee.f);
        Programs.SameAnswer(q, q, fd, args, w);
        SameEnds(o, q, k, c, fd, args, w);
      }
    }
  }

  lemma NestedThere(r: Programs.SourceProgram, f: nat)
    requires Programs.AllWellNested(r) && Programs.Find(r.funcs, f).Some?
    ensures Source.ItemsWellNested(Programs.Find(r.funcs, f).value.body, false)
  {
  }

  lemma FitParams(k: Meanings, c: Closure, fd: Source.FuncDef)
    requires Fits(k, c, fd)
    ensures |fd.params| == |c.params| && fd.isVoid == c.isVoid
  {
    hide Rep, ItemsNamed, ItemsSay, LexItems;
    var x: Lex, g: Declaration :| FitsAs(k, x, g, c, fd);
    RepNumbered(k, Declare(x, g.name), c.scopes, map[]);
    ParamIds(Declare(x, g.name), g.params);
  }

  lemma SameEnds(o: Source.Oracle, q: Source.Oracle, k: Meanings, c: Closure, fd: Source.FuncDef, args: seq<Word>,
                 w: Source.World)
    requires Fits(k, c, fd) && |args| == |c.params| == |fd.params| && forall w1, f, vs :: o(w1, f, vs) == q(w1, f, vs)
    ensures forall r :: NamedEndsWith(o, c, args, w, r) <==> Programs.EndsWith(q, fd, args, w, r)
  {
    var x: Lex, g: Declaration :| FitsAs(k, x, g, c, fd);
    assert SameCalls(o, q);
    hide FitsAs, SameCalls, RunClosure, Source.RunFunc;
    forall r ensures NamedEndsWith(o, c, args, w, r) <==> Programs.EndsWith(q, fd, args, w, r) {
      forall fuel: nat ensures RunClosure(o, fuel, c, args, w) == Source.RunFunc(q, fuel, fd, args, w) {
        ClosureRuns(o, q, fuel, k, x, g, c, fd, args, w);
      }
    }
  }
}
