/**
 * Which parsed programs the first pass accepts, as far as names go: the rule on the tree itself.
 */
module NamesAccept {
  import opened Words
  import opened Names
  import opened NamesPrograms
  import opened NamesRun
  import opened SymbolsAccept
  import S = Symbols
  import SymbolsReplay

  // ----- the rule -----

  predicate ExpScoped(vis: set<string>, e: Exp)
  {
    match e
    case Number(_) => true
    case Name(n) => n in vis
    case Apply(f, args) => f in vis && ArgsScoped(vis, args)
    case Same(e0) => ExpScoped(vis, e0)
    case Minus(e0) => ExpScoped(vis, e0)
    case Opposite(e0) => ExpScoped(vis, e0)
    case Arith(_, l, r) => ExpScoped(vis, l) && ExpScoped(vis, r)
    case Logical(_, l, r) => ExpScoped(vis, l) && ExpScoped(vis, r)
  }

  predicate ArgsScoped(vis: set<string>, es: Exps)
  {
    es.Exps? ==> ExpScoped(vis, es.head) && ArgsScoped(vis, es.tail)
  }

  predicate InitScoped(vis: set<string>, init: Option<Exp>) { init.Some? ==> ExpScoped(vis, init.value) }

  predicate StmtScoped(vis: set<string>, st: Stmt)
    decreases st
  {
    match st
    case Set(n, e) => ExpScoped(vis, e) && n in vis
    case Do(e) => ExpScoped(vis, e)
    case Compound(items) => ItemsScoped(vis, items)
    case Give(ret) => InitScoped(vis, ret)
    case Choose(c, t, f) => ExpScoped(vis, c) && StmtScoped(vis, t) && (f.Some? ==> StmtScoped(vis, f.value))
    case Loop(c, body) => ExpScoped(vis, c) && StmtScoped(vis, body)
    case _ => true
  }

  /** A constant sees those before it in its list; the initialisers of variables are not looked at. */
  predicate ItemsScoped(vis: set<string>, items: Items)
    decreases items
  {
    match items
    case NoItems => true
    case Items(Constants(defs), rest) =>
      && DifferentNames(DefinedNames(defs)) && ConstsScoped(vis, defs)
      && ItemsScoped(vis + NameSet(DefinedNames(defs)), rest)
    case Items(Variables(defs), rest) =>
      DifferentNames(DefinedNames(defs)) && ItemsScoped(vis + NameSet(DefinedNames(defs)), rest)
    case Items(Statement(st), rest) => StmtScoped(vis, st) && ItemsScoped(vis, rest)
  }

  predicate ConstsScoped(vis: set<string>, defs: NamedDefs)
    decreases defs
  {
    InitScoped(vis, defs.def.init) && (defs.Many? ==> ConstsScoped(vis + {defs.def.name}, defs.rest))
  }

  function TopNames(g: Declaration): seq<string>
  {
    if g.Function? then [g.name] else DefinedNames(g.defs)
  }

  function AllTopNames(gs: seq<Declaration>): seq<string>
  {
    if gs == [] then [] else TopNames(gs[0]) + AllTopNames(gs[1..])
  }

  predicate TopScoped(vis: set<string>, g: Declaration)
  {
    match g
    case GlobalConstants(defs) => ConstsScoped(vis, defs)
    case GlobalVariables(_) => true
    case Function(_, f, ps, body) => ItemsScoped(vis + {f} + NameSet(ps), body)
  }

  predicate AllTopScoped(vis: set<string>, gs: seq<Declaration>)
    decreases |gs|
  {
    gs != [] ==> TopScoped(vis, gs[0]) && AllTopScoped(vis + NameSet(TopNames(gs[0])), gs[1..])
  }

  predicate NamesFollow(lib: seq<string>, gs: seq<Declaration>)
  {
    && DifferentNames(AllTopNames(gs)) && (forall n :: n in AllTopNames(gs) ==> n !in lib)
    && AllTopScoped(NameSet(lib), gs)
  }

  // ----- the rule on the skeleton -----

  lemma {:induction false} UsesScoped(vis: set<string>, e: Exp)
    ensures ExpScoped(vis, e) <==> forall n :: n in Uses(e) ==> n in vis
    decreases e
  {
    match e
    case Number(_) =>
    case Name(_) =>
    case Apply(_, args) => ArgsUsesScoped(vis, args);
    case Same(e0) => UsesScoped(vis, e0);
    case Minus(e0) => UsesScoped(vis, e0);
    case Opposite(e0) => UsesScoped(vis, e0);
    case Arith(_, l, r) =>
      UsesScoped(vis, l);
      UsesScoped(vis, r);
    case Logical(_, l, r) =>
      UsesScoped(vis, l);
      UsesScoped(vis, r);
  }

  lemma {:induction false} ArgsUsesScoped(vis: set<string>, es: Exps)
    ensures ArgsScoped(vis, es) <==> forall n :: n in ArgsUses(es) ==> n in vis
    decreases es
  {
    if es.Exps? {
      UsesScoped(vis, es.head);
      ArgsUsesScoped(vis, es.tail);
    }
  }

  lemma {:induction false} UsesFirst(vis: set<string>, ns: seq<string>, rest: S.Parts)
    ensures AllScoped(vis, UsesThen(ns, rest)) <==> (forall n :: n in ns ==> n in vis) && AllScoped(vis, rest)
  {
    if ns != [] {
      UsesFirst(vis, ns[1..], rest);
      assert vis + {} == vis;
      assert forall n :: n in ns <==> n == ns[0] || n in ns[1..];
    }
  }

  lemma InitFirst(vis: set<string>, init: Option<Exp>)
    ensures InitScoped(vis, init) <==> forall n :: n in InitUses(init) ==> n in vis
  {
    if init.Some? { UsesScoped(vis, init.value); }
  }

  lemma {:induction false} StmtFirst(vis: set<string>, st: Stmt, rest: S.Parts)
    ensures AllScoped(vis, StmtParts(st, rest)) <==> StmtScoped(vis, st) && AllScoped(vis, rest)
    decreases st
  {
    hide ExpScoped, Uses;
    match st
    case Set(n, e) =>
      UsesScoped(vis, e);
      UsesFirst(vis, Uses(e) + [n], rest);
    case Do(e) =>
      UsesScoped(vis, e);
      UsesFirst(vis, Uses(e), rest);
    case Compound(items) =>
      ItemsFollow(vis, items);
      assert vis + {} == vis;
    case Give(ret) =>
      InitFirst(vis, ret);
      UsesFirst(vis, InitUses(ret), rest);
    case Choose(c, t, f) =>
      var more := if f.Some? then StmtParts(f.value, rest) else rest;
      UsesScoped(vis, c);
      UsesFirst(vis, Uses(c), StmtParts(t, more));
      StmtFirst(vis, t, more);
      if f.Some? { StmtFirst(vis, f.value, rest); }
    case Loop(c, body) =>
      UsesScoped(vis, c);
      UsesFirst(vis, Uses(c), StmtParts(body, rest));
      StmtFirst(vis, body, rest);
    case _ =>
  }

  lemma {:induction false} ListNames(defs: NamedDefs)
    ensures SymbolsReplay.DefNames(DefsOf(defs)) == DefinedNames(defs)
    decreases defs
  {
    if defs.Many? { ListNames(defs.rest); }
  }

  lemma {:induction false} ConstsFollow(vis: set<string>, defs: NamedDefs)
    ensures DefsScoped(vis, DefsOf(defs)) <==> ConstsScoped(vis, defs)
    decreases defs
  {
    InitFirst(vis, defs.def.init);
    if defs.Many? { ConstsFollow(vis + {defs.def.name}, defs.rest); }
  }

  lemma {:induction false} ItemsFollow(vis: set<string>, items: Items)
    ensures AllScoped(vis, ItemsParts(items)) <==> ItemsScoped(vis, items)
    decreases items
  {
    match items
    case NoItems =>
    case Items(Constants(defs), rest) =>
      ListNames(defs);
      ConstsFollow(vis, defs);
      ItemsFollow(vis + NameSet(DefinedNames(defs)), rest);
    case Items(Variables(defs), rest) =>
      ListNames(defs);
      ItemsFollow(vis + NameSet(DefinedNames(defs)), rest);
    case Items(Statement(st), rest) =>
      ItemsFollow(vis, rest);
      StmtFirst(vis, st, if st.Give? then S.Parts.Parts(S.Return, ItemsParts(rest)) else ItemsParts(rest));
      assert vis + {} == vis;
  }

  lemma TopFollows(vis: set<string>, g: Declaration)
    ensures GlobalScoped(vis, Skeleton(g)) <==> TopScoped(vis, g)
    ensures SymbolsReplay.GlobalNames(Skeleton(g)) == TopNames(g)
  {
    match g
    case GlobalConstants(defs) =>
      ListNames(defs);
      ConstsFollow(vis, defs);
    case GlobalVariables(defs) => ListNames(defs);
    case Function(_, f, ps, body) => ItemsFollow(vis + {f} + NameSet(ps), body);
  }

  lemma {:induction false} TopsFollow(vis: set<string>, gs: seq<Declaration>)
    ensures GlobalsScoped(vis, Skeletons(gs)) <==> AllTopScoped(vis, gs)
    ensures SymbolsReplay.AllGlobalNames(Skeletons(gs)) == AllTopNames(gs)
    decreases |gs|
  {
    hide GlobalScoped, TopScoped, Skeleton, TopNames;
    if gs != [] {
      assert Skeletons(gs)[1..] == Skeletons(gs[1..]);
      TopFollows(vis, gs[0]);
      TopsFollow(vis + NameSet(TopNames(gs[0])), gs[1..]);
    }
  }

  /** The first pass accepts a parsed program, for any hash function, if and only if its names follow the rule. */
  lemma AcceptsNames(h: S.Hash, lib: seq<string>, gs: seq<Declaration>)
    ensures S.BuildGlobals(h, SymbolsReplay.Initially(h, lib), Skeletons(gs)).Some? <==> NamesFollow(lib, gs)
  {
    hide S.BuildGlobals, SymbolsReplay.Initially, GlobalsScoped, AllTopScoped, Skeletons;
    AcceptsExactly(h, lib, Skeletons(gs));
    TopsFollow(NameSet(lib), gs);
  }
}
