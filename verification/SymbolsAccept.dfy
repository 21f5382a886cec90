/**
 * Which programs the build pass accepts: a rule on names and scopes alone.
 */
module SymbolsAccept {
  import opened Words
  import opened Symbols
  import opened SymbolsBuild
  import opened SymbolsReplay

  // ----- the rule -----

  predicate Distinct(ns: seq<string>) { forall i, j :: 0 <= i < j < |ns| ==> ns[i] != ns[j] }

  function NameSet(ns: seq<string>): set<string> { set n | n in ns }

  /** In each constant's initialiser every name is visible: from outside, or from earlier in the same list. */
  predicate DefsScoped(vis: set<string>, defs: Defs)
    decreases defs
  {
    && (forall n :: n in defs.def.uses ==> n in vis)
    && (defs.More? ==> DefsScoped(vis + {defs.def.name}, defs.rest))
  }

  /** Every name used is visible, and no list declares a name twice; the initialisers of variables are not looked at. */
  predicate Scoped(vis: set<string>, p: Part)
    decreases p
  {
    match p
    case Use(n) => n in vis
    case Return => true
    case Const(defs) => Distinct(DefNames(defs)) && DefsScoped(vis, defs)
    case Var(defs) => Distinct(DefNames(defs))
    case Block(parts) => AllScoped(vis, parts)
  }

  /** Names stay visible to the end of their block, also after a `return`. */
  predicate AllScoped(vis: set<string>, ps: Parts)
    decreases ps
  {
    match ps
    case NoParts => true
    case Parts(p, rest) => Scoped(vis, p) && AllScoped(vis + Declares(p), rest)
  }

  function Declares(p: Part): set<string>
  {
    if p.Const? || p.Var? then NameSet(DefNames(p.defs)) else {}
  }

  predicate GlobalScoped(vis: set<string>, g: Global)
  {
    match g
    case GlobalConst(defs) => DefsScoped(vis, defs)
    case GlobalVar(_) => true
    case Func(f, ps, body) => AllScoped(vis + {f} + NameSet(ps), body)
  }

  predicate GlobalsScoped(vis: set<string>, gs: seq<Global>)
    decreases |gs|
  {
    gs != [] ==> GlobalScoped(vis, gs[0]) && GlobalsScoped(vis + NameSet(GlobalNames(gs[0])), gs[1..])
  }

  /** A program as it should be: its global names are different from each other and from those of the library, and
      every name is declared before it is used. */
  predicate Accepted(lib: seq<string>, gs: seq<Global>)
  {
    && Distinct(AllGlobalNames(gs)) && (forall n :: n in AllGlobalNames(gs) ==> n !in lib)
    && GlobalsScoped(NameSet(lib), gs)
  }

  // ----- visible names -----

  predicate Numbered(x: Lex) { forall i :: i in x.env ==> i < |x.names| }

  /** The names an environment makes visible. */
  function Visible(x: Lex): set<string>
  {
    set i | i in x.env && i < |x.names| :: x.names[i]
  }

  lemma {:induction false} FoundExactly(x: Lex, n: string)
    ensures Lookup(x, n).Some? <==> n in Visible(x)
    decreases |x.env|
  {
    if x.env != [] {
      var init, last := x.env[..|x.env| - 1], x.env[|x.env| - 1];
      FoundExactly(x.(env := init), n);
      assert x.env == init + [last];
      assert Visible(x) == Visible(x.(env := init)) + if last < |x.names| then {x.names[last]} else {};
    }
  }

  lemma DeclareVisible(x: Lex, n: string)
    requires Numbered(x)
    ensures Numbered(Declare(x, n)) && Visible(Declare(x, n)) == Visible(x) + {n}
  {
    var y := Declare(x, n);
    forall m ensures m in Visible(y) <==> m in Visible(x) || m == n {
      if m in Visible(x) {
        var i :| i in x.env && i < |x.names| && x.names[i] == m;
        assert i in y.env && y.names[i] == m;
      }
      if m == n { assert |x.names| in y.env && y.names[|x.names|] == n; }
      if m in Visible(y) {
        var i :| i in y.env && i < |y.names| && y.names[i] == m;
        if i < |x.names| { assert i in x.env && x.names[i] == m; }
      }
    }
  }

  lemma NumberedBuild(h: Hash, t: Table)
    requires BuildOk(h, t)
    ensures Numbered(Abs(t))
  {
    forall i | i in Open(t, t.level) ensures i < |t.items| { OpenIsSaw(t, t.level, i); }
  }

  /** What is visible stays so when more names are numbered. */
  lemma SameVisible(x: Lex, y: Lex)
    requires Numbered(x) && x.names <= y.names && y.env == x.env
    ensures Numbered(y) && Visible(y) == Visible(x)
  {
    forall n ensures n in Visible(x) <==> n in Visible(y) {
      if n in Visible(x) {
        var i :| i in x.env && i < |x.names| && x.names[i] == n;
        assert y.names[i] == n;
      }
      if n in Visible(y) {
        var i :| i in y.env && i < |y.names| && y.names[i] == n;
        assert x.names[i] == n;
      }
    }
  }

  lemma DistinctHead(n: string, ns: seq<string>)
    ensures Distinct([n] + ns) <==> n !in ns && Distinct(ns)
  {
    var all := [n] + ns;
    if Distinct(all) {
      forall i | 0 <= i < |ns| ensures ns[i] != n { assert all[0] != all[i + 1]; }
      forall i, j | 0 <= i < j < |ns| ensures ns[i] != ns[j] { assert all[i + 1] != all[j + 1]; }
    }
  }

  lemma {:induction false} DistinctJoin(ns: seq<string>, ms: seq<string>)
    ensures Distinct(ns + ms) <==> Distinct(ns) && Distinct(ms) && forall n :: n in ns ==> n !in ms
  {
    if ns == [] {
      assert ns + ms == ms;
    } else {
      var n, rest := ns[0], ns[1..];
      DistinctJoin(rest, ms);
      DistinctHead(n, rest);
      DistinctHead(n, rest + ms);
      assert ns == [n] + rest && ns + ms == [n] + (rest + ms);
    }
  }

  // ----- the environment's names -----

  lemma {:induction false} LexDefsVisible(x: Lex, defs: Defs)
    requires Numbered(x)
    ensures var y := LexDefs(x, defs); Numbered(y) && Visible(y) == Visible(x) + NameSet(DefNames(defs))
    decreases defs
  {
    hide Visible, Numbered;
    var n := defs.def.name;
    DeclareVisible(x, n);
    if defs.More? {
      LexDefsVisible(Declare(x, n), defs.rest);
      NameSetHead(n, DefNames(defs.rest));
    } else {
      NameSetHead(n, []);
    }
  }

  lemma NameSetHead(n: string, ns: seq<string>)
    ensures NameSet([n] + ns) == {n} + NameSet(ns)
  {
  }

  lemma NameSetJoin(ns: seq<string>, ms: seq<string>)
    ensures NameSet(ns + ms) == NameSet(ns) + NameSet(ms)
  {
  }

  lemma {:induction false} LexParamsVisible(x: Lex, ps: seq<string>)
    requires Numbered(x)
    ensures var y := LexParams(x, ps); Numbered(y) && Visible(y) == Visible(x) + NameSet(ps)
  {
    hide Visible, Numbered;
    if ps == [] {
      assert NameSet(ps) == {};
    } else {
      var most, last := ps[..|ps| - 1], ps[|ps| - 1];
      LexParamsVisible(x, most);
      DeclareVisible(LexParams(x, most), last);
      assert ps == most + [last];
      NameSetJoin(most, [last]);
    }
  }

  // ----- declarations -----

  lemma AddNamesExactly(h: Hash, t: Table, n: string)
    requires BuildOk(h, t)
    ensures forall m :: ChainNames(Add(h, t, n), m) <==> ChainNames(t, m) || m == n
  {
    AddOk(h, t, n);
    AddNames(h, t, n);
    var u, x := Add(h, t, n), |t.items|;
    forall m | ChainNames(u, m) ensures ChainNames(t, m) || m == n {
      var y :| y in LevelAt(u, u.level).Chain() && Named(u, y, m);
      if y != x {
        assert y in LevelAt(t, t.level).Chain();
        NumberedBuild(h, t);
        ChainOpen(t, y);
        assert Named(t, y, m);
      }
    }
  }

  lemma ChainOpen(t: Table, y: nat)
    requires y in LevelAt(t, t.level).Chain() && t.level >= 0
    ensures y in Open(t, t.level)
  {
    assert Open(t, t.level) == Open(t, t.level - 1) + LevelAt(t, t.level).Chain();
  }

  lemma {:induction false} DefsAccepted(h: Hash, t: Table, isConst: bool, defs: Defs)
    requires BuildOk(h, t)
    ensures BuildDefs(h, t, isConst, defs).Some? <==>
            && Distinct(DefNames(defs)) && (forall n :: n in DefNames(defs) ==> !ChainNames(t, n))
            && (isConst ==> DefsScoped(Visible(Abs(t)), defs))
    decreases defs
  {
    hide BuildOk, Grows, Abs, Add, Visible, ChainNames, Get, GetHere;
    var n := defs.def.name;
    NotHere(h, t, n);
    forall m ensures Get(h, t, m).Some? <==> m in Visible(Abs(t)) {
      GetIsLexical(h, t, m);
      FoundExactly(Abs(t), m);
    }
    DistinctHead(n, if defs.More? then DefNames(defs.rest) else []);
    if defs.More? {
      AddOk(h, t, n);
      NumberedBuild(h, t);
      DeclareVisible(Abs(t), n);
      AddNamesExactly(h, t, n);
      DefsAccepted(h, Add(h, t, n), isConst, defs.rest);
    }
  }

  // ----- blocks -----

  lemma NoChainNames(t: Table)
    requires LevelAt(t, t.level).Chain() == []
    ensures forall n :: !ChainNames(t, n)
  {
  }

  lemma {:induction false} PartAccepted(h: Hash, t: Table, b: int, p: Part)
    requires BuildOk(h, t) && Opened(t, b)
    ensures BuildPart(h, t, p).Some? <==> Scoped(Visible(Abs(t)), p)
    decreases p, 1
  {
    hide BuildOk, Grows, Abs, Visible, Get, Opened, Indent, BuildDefs, ChainNames;
    IndentOk(h, t);
    NoChainNames(Indent(t));
    match p
    case Use(n) =>
      GetIsLexical(h, t, n);
      FoundExactly(Abs(t), n);
    case Return =>
    case Const(defs) => DefsAccepted(h, Indent(t), true, defs);
    case Var(defs) => DefsAccepted(h, Indent(t), false, defs);
    case Block(_) => BlockAccepted(h, t, p);
  }

  lemma {:induction false} BlockAccepted(h: Hash, t: Table, p: Part)
    requires BuildOk(h, t) && p.Block?
    ensures BuildPart(h, t, p).Some? <==> Scoped(Visible(Abs(t)), p)
    decreases p, 0
  {
    InLevels(h, t);
    IndentOk(h, t);
    InLevels(h, Indent(t));
    hide BuildOk, Grows, Abs, Visible, Indent;
    PartsAccepted(h, Indent(t), t.level + 1, p.parts);
  }

  lemma {:induction false} PartsAccepted(h: Hash, t: Table, b: int, ps: Parts)
    requires BuildOk(h, t) && Opened(t, b)
    ensures BuildParts(h, t, ps).Some? <==> AllScoped(Visible(Abs(t)), ps)
    decreases ps, 0
  {
    hide BuildOk, Grows, Abs, Visible, Opened, BuildPart, Scoped, Declares;
    if ps.Parts? {
      PartAccepted(h, t, b, ps.head);
      if BuildPart(h, t, ps.head).Some? {
        var u := BuildPart(h, t, ps.head).value;
        PartBuilt(h, t, b, ps.head, u);
        PartVisible(h, t, ps.head, u);
        PartsAccepted(h, u, b, ps.tail);
      }
    }
  }

  /** A part leaves its declarations visible, a block none. */
  lemma PartVisible(h: Hash, t: Table, p: Part, t1: Table)
    requires BuildOk(h, t) && BuildPart(h, t, p) == Some(t1) && Grows(t, t1) && Abs(t1) == LexPart(Abs(t), p)
    ensures Visible(Abs(t1)) == Visible(Abs(t)) + Declares(p)
  {
    NumberedBuild(h, t);
    match p
    case Const(defs) => LexDefsVisible(Abs(t), defs);
    case Var(defs) => LexDefsVisible(Abs(t), defs);
    case Block(_) =>
      assert Abs(t).names <= Abs(t1).names;
      SameVisible(Abs(t), Abs(t1));
    case _ =>
  }

  // ----- whole programs -----

  lemma GlobalAccepted(h: Hash, t: Table, g: Global)
    requires BuildOk(h, t) && t.level == 0
    ensures BuildGlobal(h, t, g).Some? <==>
            && Distinct(GlobalNames(g)) && (forall n :: n in GlobalNames(g) ==> !ChainNames(t, n))
            && GlobalScoped(Visible(Abs(t)), g)
  {
    hide BuildOk, Grows, Abs, Visible, ChainNames, BuildDefs, BuildPart, FuncScope, Add, GetHere;
    match g
    case GlobalConst(defs) => DefsAccepted(h, t, true, defs);
    case GlobalVar(defs) => DefsAccepted(h, t, false, defs);
    case Func(f, ps, body) =>
      NotHere(h, t, f);
      NumberedBuild(h, t);
      FuncScopeBuilt(h, t, f, ps);
      DeclareVisible(Abs(t), f);
      LexParamsVisible(Declare(Abs(t), f), ps);
      BlockAccepted(h, FuncScope(h, t, f, ps), Block(body));
  }

  lemma GlobalVisible(h: Hash, t: Table, g: Global, t1: Table)
    requires BuildOk(h, t) && t.level == 0 && BuildGlobal(h, t, g) == Some(t1)
    requires Grows(t, t1) && Abs(t1) == LexGlobal(Abs(t), g)
    ensures Visible(Abs(t1)) == Visible(Abs(t)) + NameSet(GlobalNames(g))
  {
    hide BuildOk, Visible, BuildDefs, BuildPart, FuncScope, Add, GetHere;
    NumberedBuild(h, t);
    match g
    case GlobalConst(defs) => LexDefsVisible(Abs(t), defs);
    case GlobalVar(defs) => LexDefsVisible(Abs(t), defs);
    case Func(f, ps, body) =>
      var y := Declare(Abs(t), f);
      DeclareVisible(Abs(t), f);
      FuncItems(h, t, g, t1);
      SameVisible(y, Abs(t1));
      NameSetHead(f, []);
      assert [f] + [] == [f] && NameSet([]) == {};
  }

  lemma FuncItems(h: Hash, t: Table, g: Global, t1: Table)
    requires BuildOk(h, t) && t.level == 0 && g.Func? && BuildGlobal(h, t, g) == Some(t1)
    ensures Declare(Abs(t), g.name).names <= Abs(t1).names
  {
    hide BuildOk, Open, FuncScope, GetHere, BuildPart;
    FuncScopeBuilt(h, t, g.name, g.params);
    FuncBuilt(h, t, g, t1);
    var u, v := Add(h, t, g.name), FuncScope(h, t, g.name, g.params);
    var w := BuildPart(h, v, Block(g.body)).value;
    BlockBuilt(h, v, Block(g.body), w);
    assert u.items <= v.items <= w.items == t1.items;
    assert Keys(u.items) <= Keys(t1.items);
  }

  lemma {:induction false} GlobalsAccepted(h: Hash, t: Table, gs: seq<Global>)
    requires BuildOk(h, t) && t.level == 0
    ensures BuildGlobals(h, t, gs).Some? <==>
            && Distinct(AllGlobalNames(gs)) && (forall n :: n in AllGlobalNames(gs) ==> !ChainNames(t, n))
            && GlobalsScoped(Visible(Abs(t)), gs)
    decreases |gs|
  {
    hide BuildOk, Grows, Abs, Visible, ChainNames, BuildGlobal, GlobalScoped, GlobalNames, Distinct;
    if gs == [] {
      assert Distinct(AllGlobalNames(gs)) by { NoneTwice(); }
    } else {
      GlobalAccepted(h, t, gs[0]);
      DistinctJoin(GlobalNames(gs[0]), AllGlobalNames(gs[1..]));
      if BuildGlobal(h, t, gs[0]).Some? {
        var u := BuildGlobal(h, t, gs[0]).value;
        GlobalBuilt(h, t, gs[0], u);
        GlobalVisible(h, t, gs[0], u);
        GlobalChain(h, t, gs[0], u);
        GlobalsAccepted(h, u, gs[1..]);
      }
    }
  }

  lemma NoneTwice()
    ensures Distinct([])
  {
  }

  /** The names on the global level are those there were and those declared. */
  lemma GlobalChain(h: Hash, t: Table, g: Global, t1: Table)
    requires BuildOk(h, t) && t.level == 0 && BuildGlobal(h, t, g) == Some(t1)
    ensures forall n :: ChainNames(t1, n) <==> ChainNames(t, n) || n in GlobalNames(g)
  {
    GlobalGlobals(h, t, g, t1);
    GlobalBuilt(h, t, g, t1);
    forall n | ChainNames(t1, n) ensures ChainNames(t, n) || n in GlobalNames(g) {
      var x :| x in LevelAt(t1, t1.level).Chain() && Named(t1, x, n);
      hide BuildOk;
      ChainMore(t, t1, GlobalNames(g), x, n) by { assert Globals(t1) == LevelAt(t1, 0).Chain(); }
    }
  }

  lemma ChainMore(t: Table, t1: Table, ns: seq<string>, x: nat, n: string)
    requires MoreGlobals(t, t1, ns) && t.level == 0 && x in Globals(t1) && Named(t1, x, n)
    requires forall y :: y in Globals(t) ==> y < |t.items|
    ensures ChainNames(t, n) || n in ns
  {
  }

  lemma {:induction false} ParamsChain(h: Hash, t: Table, ns: seq<string>)
    requires BuildOk(h, t)
    ensures BuildOk(h, AddParams(h, t, ns))
    ensures forall n :: ChainNames(AddParams(h, t, ns), n) <==> ChainNames(t, n) || n in ns
  {
    hide BuildOk, ChainNames, Add;
    if ns != [] {
      var most, last := ns[..|ns| - 1], ns[|ns| - 1];
      ParamsChain(h, t, most);
      AddOk(h, AddParams(h, t, most), last);
      AddNamesExactly(h, AddParams(h, t, most), last);
      assert forall n :: n in ns <==> n in most || n == last by { assert ns == most + [last]; }
    }
  }

  /** The table before the first global: the names of the library. */
  lemma InitiallyNames(h: Hash, lib: seq<string>)
    ensures forall n :: ChainNames(Initially(h, lib), n) <==> n in lib
    ensures Visible(Abs(Initially(h, lib))) == NameSet(lib)
  {
    StartOk(h);
    StartIs();
    assert Start().levels[0].Chain() == [];
    NoChainNames(Start());
    hide BuildOk, ChainNames, Start, Abs;
    ParamsChain(h, Start(), lib);
    InitiallyOk(h, lib);
    LexParamsVisible(Lex([], []), lib);
    assert Visible(Lex([], [])) == {};
  }

  /** For any hash function the build pass accepts exactly the programs that follow the rule. */
  lemma AcceptsExactly(h: Hash, lib: seq<string>, gs: seq<Global>)
    ensures BuildGlobals(h, Initially(h, lib), gs).Some? <==> Accepted(lib, gs)
  {
    hide BuildOk, BuildGlobals, Initially, GlobalsScoped, Visible, Abs, ChainNames, Distinct;
    InitiallyOk(h, lib);
    InitiallyNames(h, lib);
    GlobalsAccepted(h, Initially(h, lib), gs);
  }

  // ----- lookups that find nothing -----

  /** Every name in a variable's initialiser is visible once all names of its list are. */
  predicate InitsFound(vis: set<string>, p: Part)
    decreases p
  {
    match p
    case Var(defs) => forall n :: n in DefUses(defs) ==> n in vis + NameSet(DefNames(defs))
    case Block(parts) => AllInitsFound(vis, parts)
    case _ => true
  }

  /** The same of what stands before a `return`. */
  predicate AllInitsFound(vis: set<string>, ps: Parts)
    decreases ps
  {
    ps.Parts? && !ps.head.Return? ==> InitsFound(vis, ps.head) && AllInitsFound(vis + Declares(ps.head), ps.tail)
  }

  predicate GlobalInitsFound(vis: set<string>, g: Global)
  {
    match g
    case GlobalConst(_) => true
    case GlobalVar(defs) => forall n :: n in DefUses(defs) ==> n in vis + NameSet(DefNames(defs))
    case Func(f, ps, body) => AllInitsFound(vis + {f} + NameSet(ps), body)
  }

  predicate GlobalsInitsFound(vis: set<string>, gs: seq<Global>)
    decreases |gs|
  {
    gs != [] ==> GlobalInitsFound(vis, gs[0]) && GlobalsInitsFound(vis + NameSet(GlobalNames(gs[0])), gs[1..])
  }

  lemma {:induction false} AllFound(x: Lex, ns: seq<string>)
    ensures None !in LookupAll(x, ns) <==> forall n :: n in ns ==> n in Visible(x)
  {
    hide Visible, Lookup;
    if ns != [] {
      FoundExactly(x, ns[0]);
      AllFound(x, ns[1..]);
      NotInJoin([Lookup(x, ns[0])], LookupAll(x, ns[1..]));
      assert forall n :: n in ns <==> n == ns[0] || n in ns[1..];
    }
  }

  lemma NotInJoin(a: Trace, b: Trace)
    ensures None !in a + b <==> None !in a && None !in b
  {
  }

  lemma {:induction false} DefsFound(x: Lex, defs: Defs)
    requires forall n :: n in DefNames(defs) ==> n in Visible(x)
    ensures None !in LexAnswers(x, defs) <==> forall n :: n in DefUses(defs) ==> n in Visible(x)
    decreases defs
  {
    hide Visible, Lookup, LookupAll;
    var own, used := [Lookup(x, defs.def.name)], LookupAll(x, defs.def.uses);
    var rest := if defs.Last? then [] else LexAnswers(x, defs.rest);
    assert defs.def.name in DefNames(defs);
    FoundExactly(x, defs.def.name);
    AllFound(x, defs.def.uses);
    NotInJoin(own, used);
    NotInJoin(own + used, rest);
    if defs.More? {
      assert forall n :: n in DefNames(defs.rest) ==> n in DefNames(defs);
      DefsFound(x, defs.rest);
    }
  }

  lemma {:induction false} PartFound(x: Lex, p: Part)
    requires Numbered(x) && Scoped(Visible(x), p)
    ensures None !in LexTrace(x, p) <==> InitsFound(Visible(x), p)
    ensures var y := LexPart(x, p);
            Numbered(y) && x.names <= y.names && Visible(y) == Visible(x) + Declares(p)
    decreases p
  {
    hide Visible, Lookup, Numbered;
    match p
    case Use(n) => FoundExactly(x, n);
    case Return =>
    case Const(defs) =>
      LexDefsVisible(x, defs);
      LexDefsNames(x, defs);
    case Var(defs) =>
      LexDefsVisible(x, defs);
      LexDefsNames(x, defs);
      DefsFound(LexDefs(x, defs), defs);
    case Block(parts) =>
      PartsFound(x, parts);
      SameVisible(x, LexPart(x, p));
  }

  lemma {:induction false} LexDefsNames(x: Lex, defs: Defs)
    ensures x.names <= LexDefs(x, defs).names
    decreases defs
  {
    if defs.More? {
      LexDefsNames(Declare(x, defs.def.name), defs.rest);
    }
  }

  lemma {:induction false} PartsFound(x: Lex, ps: Parts)
    requires Numbered(x) && AllScoped(Visible(x), ps)
    ensures None !in LexTraces(x, ps) <==> AllInitsFound(Visible(x), ps)
    ensures x.names <= LexParts(x, ps).names
    decreases ps
  {
    hide Visible, Lookup, Numbered, InitsFound, Scoped, Declares, LexPart, LexTrace;
    if ps.Parts? {
      var y := LexPart(x, ps.head);
      PartFound(x, ps.head);
      PartsFound(y, ps.tail);
      if !ps.head.Return? { NotInJoin(LexTrace(x, ps.head), LexTraces(y, ps.tail)); }
    }
  }

  lemma {:induction false} LexParamsNames(x: Lex, ps: seq<string>)
    ensures x.names <= LexParams(x, ps).names
  {
    if ps != [] {
      LexParamsNames(x, ps[..|ps| - 1]);
    }
  }

  lemma GlobalFound(x: Lex, g: Global)
    requires Numbered(x) && GlobalScoped(Visible(x), g)
    ensures None !in LexGlobalTrace(x, g) <==> GlobalInitsFound(Visible(x), g)
    ensures var y := LexGlobal(x, g); Numbered(y) && Visible(y) == Visible(x) + NameSet(GlobalNames(g))
  {
    hide Visible, Lookup, Numbered, LookupAll, AllScoped, AllInitsFound, LexTraces, LexParts;
    match g
    case GlobalConst(defs) => LexDefsVisible(x, defs);
    case GlobalVar(defs) =>
      LexDefsVisible(x, defs);
      DefsFound(LexDefs(x, defs), defs);
    case Func(f, ps, body) =>
      var y := Declare(x, f);
      var z := LexParams(y, ps);
      DeclareVisible(x, f);
      LexParamsVisible(y, ps);
      LexParamsNames(y, ps);
      PartsFound(z, body);
      SameVisible(y, LexGlobal(x, g));
      NameSetHead(f, []);
      assert [f] + [] == [f] && NameSet([]) == {};
      FoundExactly(y, f);
      AllFound(z, ps);
      NotInJoin([Lookup(y, f)] + LookupAll(z, ps), LexTrace(z, Block(body)));
      NotInJoin([Lookup(y, f)], LookupAll(z, ps));
  }

  lemma {:induction false} GlobalsFound(x: Lex, gs: seq<Global>)
    requires Numbered(x) && GlobalsScoped(Visible(x), gs)
    ensures None !in LexGlobalTraces(x, gs) <==> GlobalsInitsFound(Visible(x), gs)
    decreases |gs|
  {
    hide Visible, Lookup, Numbered, GlobalScoped, GlobalInitsFound, GlobalNames, LexGlobal, LexGlobalTrace;
    if gs != [] {
      GlobalFound(x, gs[0]);
      GlobalsFound(LexGlobal(x, gs[0]), gs[1..]);
      NotInJoin(LexGlobalTrace(x, gs[0]), LexGlobalTraces(LexGlobal(x, gs[0]), gs[1..]));
    }
  }

  /** In an accepted program every lookup of a statement finds a declaration, and all lookups do if and only if those
      in the initialisers of variables do, which the build pass does not check. */
  lemma FindsExactly(h: Hash, lib: seq<string>, gs: seq<Global>)
    requires BuildGlobals(h, Initially(h, lib), gs).Some?
    ensures None !in GlobalTraces(h, Initially(h, lib), gs) <==> GlobalsInitsFound(NameSet(lib), gs)
  {
    hide BuildOk, BuildGlobals, Initially, GlobalTraces, LexGlobalTraces, GlobalsScoped, GlobalsInitsFound, Visible,
         Abs, ChainNames;
    var t := Initially(h, lib);
    InitiallyOk(h, lib);
    InitiallyNames(h, lib);
    AcceptsExactly(h, lib, gs);
    NumberedBuild(h, t);
    GlobalsBuilt(h, t, gs, BuildGlobals(h, t, gs).value);
    GlobalsFound(Abs(t), gs);
  }

  // ----- three programs -----

  lemma OneGlobal(lib: seq<string>, g: Global)
    ensures Accepted(lib, [g]) <==>
            Distinct(GlobalNames(g)) && (forall n :: n in GlobalNames(g) ==> n !in lib) && GlobalScoped(NameSet(lib), g)
    ensures GlobalsInitsFound(NameSet(lib), [g]) <==> GlobalInitsFound(NameSet(lib), g)
  {
    assert [g][1..] == [] && AllGlobalNames([]) == [];
    assert AllGlobalNames([g]) == GlobalNames(g) + [] == GlobalNames(g);
    assert GlobalsInitsFound(NameSet(lib) + NameSet(GlobalNames(g)), [g][1..]);
    assert GlobalsScoped(NameSet(lib) + NameSet(GlobalNames(g)), [g][1..]);
  }

  /** `int main() { return y; }` is refused. */
  lemma UndeclaredFails(h: Hash)
    ensures BuildGlobals(h, Initially(h, []), [Func("m", [], Parts(Use("y"), Parts(Return, NoParts)))]).None?
  {
    var g := Func("m", [], Parts(Use("y"), Parts(Return, NoParts)));
    AcceptsExactly(h, [], [g]);
    OneGlobal([], g);
    assert !GlobalScoped({}, g);
    assert NameSet([]) == {};
  }

  /** `int main() { int a, a; }` is refused. */
  lemma TwiceFails(h: Hash)
    ensures var twice := Var(More(Def("a", []), Last(Def("a", []))));
            BuildGlobals(h, Initially(h, []), [Func("m", [], Parts(twice, NoParts))]).None?
  {
    var twice := Var(More(Def("a", []), Last(Def("a", []))));
    var g := Func("m", [], Parts(twice, NoParts));
    AcceptsExactly(h, [], [g]);
    OneGlobal([], g);
    assert DefNames(twice.defs) == ["a", "a"];
    assert !Distinct(["a", "a"]) by { assert ["a", "a"][0] == ["a", "a"][1]; }
    assert !Scoped({"m"} + NameSet([]), twice);
    assert NameSet([]) == {};
  }

  /** `int main() { int a = y; }` is accepted, and the second pass will look y up in vain. */
  lemma UndeclaredInitPasses(h: Hash)
    ensures var g := Func("m", [], Parts(Var(Last(Def("a", ["y"]))), NoParts));
            BuildGlobals(h, Initially(h, []), [g]).Some? && None in GlobalTraces(h, Initially(h, []), [g])
  {
    var decl := Var(Last(Def("a", ["y"])));
    var g := Func("m", [], Parts(decl, NoParts));
    AcceptsExactly(h, [], [g]);
    OneGlobal([], g);
    assert NameSet([]) == {} && NameSet(["a"]) == {"a"};
    assert DefNames(decl.defs) == ["a"] && DefUses(decl.defs) == ["y"] && GlobalNames(g) == ["m"];
    assert Scoped({"m"}, decl) && AllScoped({"m"} + {"a"}, NoParts);
    assert GlobalScoped({}, g);
    assert "y" in DefUses(decl.defs) && "y" !in {"m"} + {"a"};
    assert !GlobalInitsFound({}, g);
    FindsExactly(h, [], [g]);
  }
}
