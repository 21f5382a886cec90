/**
 * Exactly which programs the second pass replays: counting the scopes opened and entered.
 */
module SymbolsExact {
  import opened Words
  import opened Symbols
  import opened SymbolsBuild
  import opened SymbolsReplay

  // ----- scopes of a program -----

  /** How many scopes the build pass opens for a part. */
  function Opens(p: Part): nat
  {
    match p
    case Const(_) => 1
    case Var(_) => 1
    case Block(parts) => 1 + AllOpen(parts)
    case _ => 0
  }

  function AllOpen(ps: Parts): nat
  {
    if ps.NoParts? then 0 else Opens(ps.head) + AllOpen(ps.tail)
  }

  /** How many the replay enters: none that follow a `return`. */
  function Enters(p: Part): nat
  {
    match p
    case Const(_) => 1
    case Var(_) => 1
    case Block(parts) => 1 + AllEnter(parts)
    case _ => 0
  }

  function AllEnter(ps: Parts): nat
  {
    if ps.NoParts? then 0 else Enters(ps.head) + if ps.head.Return? then 0 else AllEnter(ps.tail)
  }

  /** A function opens one more for its parameters. */
  function GlobalOpens(g: Global): nat { if g.Func? then 2 + AllOpen(g.body) else 0 }

  function GlobalEnters(g: Global): nat { if g.Func? then 2 + AllEnter(g.body) else 0 }

  function GlobalsOpen(gs: seq<Global>): nat
  {
    if gs == [] then 0 else GlobalOpens(gs[0]) + GlobalsOpen(gs[1..])
  }

  function GlobalsEnter(gs: seq<Global>): nat
  {
    if gs == [] then 0 else GlobalEnters(gs[0]) + GlobalsEnter(gs[1..])
  }

  lemma {:induction false} OpensNone(ps: Parts)
    ensures AllOpen(ps) == 0 <==> OnlyUses(ps)
  {
    if ps.Parts? {
      OpensNone(ps.tail);
    }
  }

  /** Every scope opened is entered exactly in faithful code. */
  lemma {:induction false} FaithfulEnters(ps: Parts)
    ensures AllEnter(ps) <= AllOpen(ps)
    ensures AllEnter(ps) == AllOpen(ps) <==> AllFaithful(ps)
    decreases ps
  {
    if ps.Parts? {
      FaithfulEnters(ps.tail);
      OpensNone(ps.tail);
      if ps.head.Block? { FaithfulEnters(ps.head.parts); }
    }
  }

  lemma {:induction false} FaithfulGlobalsEnter(gs: seq<Global>)
    ensures GlobalsEnter(gs) <= GlobalsOpen(gs)
    ensures GlobalsEnter(gs) == GlobalsOpen(gs) <==> FaithfulGlobals(gs)
    decreases |gs|
  {
    if gs != [] {
      FaithfulGlobalsEnter(gs[1..]);
      if gs[0].Func? { FaithfulEnters(gs[0].body); }
    }
  }

  // ----- scopes of a table -----

  /** How many scopes there are, on all levels, and how many of them are destroyed. */
  function Scopes(levels: seq<Level>): nat
  {
    if levels == [] then 0 else Scopes(levels[..|levels| - 1]) + |levels[|levels| - 1].scopes|
  }

  function Destroyed(levels: seq<Level>): nat
  {
    if levels == [] then 0 else Destroyed(levels[..|levels| - 1]) + levels[|levels| - 1].begin
  }

  lemma {:induction false} OneLevel(levels: seq<Level>, l: nat, v: Level)
    requires l < |levels|
    ensures Scopes(levels[l := v]) == Scopes(levels) - |levels[l].scopes| + |v.scopes|
    ensures Destroyed(levels[l := v]) == Destroyed(levels) - levels[l].begin + v.begin
    decreases |levels|
  {
    var n := |levels| - 1;
    var us := levels[l := v];
    if l < n {
      OneLevel(levels[..n], l, v);
      assert us[..n] == levels[..n][l := v] && us[n] == levels[n];
    } else {
      assert us[..n] == levels[..n] && us[n] == v;
    }
  }

  lemma {:induction false} AllGone(levels: seq<Level>)
    requires forall l :: 0 <= l < |levels| ==> levels[l].Deleted()
    ensures Destroyed(levels) >= Scopes(levels)
  {
    if levels != [] {
      assert levels[|levels| - 1].Deleted();
      AllGone(levels[..|levels| - 1]);
    }
  }

  // ----- the build pass -----

  lemma IndentScopes(t: Table)
    requires 0 <= t.level + 1 <= |t.levels|
    ensures Scopes(Indent(t).levels) == Scopes(t.levels) + 1 && Indent(t).level == t.level + 1
  {
    var l := t.level + 1;
    var levels := if l == |t.levels| then t.levels + [Level(0, -1, [])] else t.levels;
    if l == |t.levels| { assert levels[..l] == t.levels; }
    OneLevel(levels, l, Offer(levels[l]));
  }

  lemma AddScopes(h: Hash, t: Table, n: string)
    ensures Scopes(Add(h, t, n).levels) == Scopes(t.levels)
  {
    var x, v := |t.items|, LevelAt(t, t.level);
    if 0 <= t.level < |t.levels| && 0 <= v.scope < |v.scopes| {
      OneLevel(t.levels, t.level, v.(scopes := v.scopes[v.scope := v.scopes[v.scope] + [x]]));
    }
  }

  lemma {:induction false} DefsScopes(h: Hash, t: Table, isConst: bool, defs: Defs, t1: Table)
    requires BuildDefs(h, t, isConst, defs) == Some(t1)
    ensures Scopes(t1.levels) == Scopes(t.levels)
    decreases defs
  {
    hide Get, GetHere, Add;
    AddScopes(h, t, defs.def.name);
    if defs.More? { DefsScopes(h, Add(h, t, defs.def.name), isConst, defs.rest, t1); }
  }

  lemma {:induction false} LeaveScopes(t: Table)
    ensures Leave(t).levels == t.levels
    decreases t.level
  {
    if t.level >= 0 {
      var up := t.(level := t.level - 1);
      if up.level > 0 && LevelAt(t, t.level).Chain() != [] { LeaveScopes(up); }
    }
  }

  lemma {:induction false} PartsScopes(h: Hash, t: Table, b: int, ps: Parts, t1: Table)
    requires BuildOk(h, t) && Opened(t, b) && BuildParts(h, t, ps) == Some(t1)
    ensures Scopes(t1.levels) == Scopes(t.levels) + AllOpen(ps)
    decreases ps, 0
  {
    hide BuildOk, Opened, Scopes, BuildPart;
    if ps.Parts? {
      var u := BuildPart(h, t, ps.head).value;
      PartBuilt(h, t, b, ps.head, u);
      PartScopes(h, t, ps.head, u);
      PartsScopes(h, u, b, ps.tail, t1);
    }
  }

  lemma {:induction false} PartScopes(h: Hash, t: Table, p: Part, t1: Table)
    requires BuildOk(h, t) && BuildPart(h, t, p) == Some(t1)
    ensures Scopes(t1.levels) == Scopes(t.levels) + Opens(p)
    decreases p, 1
  {
    hide BuildOk, Scopes, Indent, Get, BuildDefs, Leave, Opened;
    InLevels(h, t);
    match p
    case Use(_) =>
    case Return =>
    case Const(defs) =>
      IndentScopes(t);
      DefsScopes(h, Indent(t), true, defs, t1);
    case Var(defs) =>
      IndentScopes(t);
      DefsScopes(h, Indent(t), false, defs, t1);
    case Block(parts) =>
      var u := BuildParts(h, Indent(t), parts).value;
      IndentScopes(t);
      IndentOk(h, t);
      InLevels(h, Indent(t));
      OpenedHere(Indent(t));
      PartsScopes(h, Indent(t), t.level + 1, parts, u);
      LeaveScopes(u);
  }

  lemma {:induction false} ParamScopes(h: Hash, t: Table, ps: seq<string>)
    ensures Scopes(AddParams(h, t, ps).levels) == Scopes(t.levels)
  {
    if ps != [] {
      ParamScopes(h, t, ps[..|ps| - 1]);
      AddScopes(h, AddParams(h, t, ps[..|ps| - 1]), ps[|ps| - 1]);
    }
  }

  lemma GlobalScopes(h: Hash, t: Table, g: Global, t1: Table)
    requires BuildOk(h, t) && t.level == 0 && BuildGlobal(h, t, g) == Some(t1)
    ensures Scopes(t1.levels) == Scopes(t.levels) + GlobalOpens(g)
  {
    hide BuildOk, Scopes, BuildDefs, BuildPart, Add, Indent, AddParams, Leave, GetHere;
    match g
    case GlobalConst(defs) => DefsScopes(h, t, true, defs, t1);
    case GlobalVar(defs) => DefsScopes(h, t, false, defs, t1);
    case Func(f, ps, body) =>
      var u := Add(h, t, f);
      AddScopes(h, t, f);
      AddOk(h, t, f);
      InLevels(h, u);
      IndentScopes(u);
      ParamScopes(h, Indent(u), ps);
      FuncScopeBuilt(h, t, f, ps);
      var w := BuildPart(h, FuncScope(h, t, f, ps), Block(body)).value;
      PartScopes(h, FuncScope(h, t, f, ps), Block(body), w);
      LeaveScopes(w);
  }

  lemma {:induction false} GlobalsScopes(h: Hash, t: Table, gs: seq<Global>, f: Table)
    requires BuildOk(h, t) && t.level == 0 && BuildGlobals(h, t, gs) == Some(f)
    ensures Scopes(f.levels) == Scopes(t.levels) + GlobalsOpen(gs)
    decreases |gs|
  {
    hide BuildOk, Scopes, BuildGlobal, GlobalOpens;
    if gs != [] {
      var u := BuildGlobal(h, t, gs[0]).value;
      GlobalBuilt(h, t, gs[0], u);
      GlobalScopes(h, t, gs[0], u);
      GlobalsScopes(h, u, gs[1..], f);
    }
  }

  // ----- the replay pass -----

  /** From t to u, n scopes were entered: each raises the level until it is destroyed. */
  predicate EnteredMore(t: Table, u: Table, n: nat)
  {
    Destroyed(u.levels) + u.level == Destroyed(t.levels) + t.level + n && Scopes(u.levels) == Scopes(t.levels)
  }

  lemma EnterCounts(t: Table, t1: Table)
    requires Enter(t) == Some(t1)
    ensures EnteredMore(t, t1, 1)
  {
    var l := t.level + 1;
    var v := t.levels[l];
    OneLevel(t.levels, l, v.(scope := (v.scope + 1) % |v.scopes|));
  }

  lemma {:induction false} DestroyLevels(h: Hash, t: Table, chain: seq<nat>, t1: Table)
    requires Destroy(h, t, chain) == Some(t1)
    ensures t1.levels == t.levels && t1.level == t.level
    decreases |chain|
  {
    if chain != [] {
      var b := h(t.items[chain[0]].key);
      DestroyLevels(h, t.(buckets := t.buckets[b := Unlink(t.buckets[b], chain[0]).value]), chain[1..], t1);
    }
  }

  lemma {:induction false} DedentCounts(h: Hash, t: Table, t1: Table)
    requires Dedent(h, t) == Some(t1)
    ensures EnteredMore(t, t1, 0) && t1.level >= -1
    decreases t.level
  {
    var v := t.levels[t.level];
    var polled := t.(levels := t.levels[t.level := v.(begin := v.begin + 1)], level := t.level - 1);
    OneLevel(t.levels, t.level, v.(begin := v.begin + 1));
    var up := Destroy(h, polled, v.scopes[v.begin]).value;
    DestroyLevels(h, polled, v.scopes[v.begin], up);
    if 0 < t.level - 1 == up.level && v.scopes[v.begin] != [] { DedentCounts(h, up, t1); }
  }

  lemma {:induction false} PartEnters(h: Hash, t: Table, p: Part, q: Replayed)
    requires ReplayPart(h, t, p) == Some(q)
    ensures EnteredMore(t, q.table, Enters(p))
    decreases p
  {
    hide Enter, Dedent, Get, DefAnswers, Scopes, Destroyed;
    match p
    case Use(_) =>
    case Return =>
    case Const(_) => EnterCounts(t, q.table);
    case Var(_) => EnterCounts(t, q.table);
    case Block(parts) =>
      var t1 := Enter(t).value;
      EnterCounts(t, t1);
      var r := ReplayParts(h, t1, parts).value;
      PartsEnter(h, t1, parts, r);
      DedentCounts(h, r.table, q.table);
  }

  lemma {:induction false} PartsEnter(h: Hash, t: Table, ps: Parts, q: Replayed)
    requires ReplayParts(h, t, ps) == Some(q)
    ensures EnteredMore(t, q.table, AllEnter(ps))
    decreases ps
  {
    hide Scopes, Destroyed;
    if ps.Parts? {
      var r := ReplayPart(h, t, ps.head).value;
      PartEnters(h, t, ps.head, r);
      if !ps.head.Return? { PartsEnter(h, r.table, ps.tail, ReplayParts(h, r.table, ps.tail).value); }
    }
  }

  lemma GlobalEntersMore(h: Hash, t: Table, g: Global, q: Replayed)
    requires ReplayGlobal(h, t, g) == Some(q)
    ensures EnteredMore(t, q.table, GlobalEnters(g))
  {
    hide Enter, Dedent, Get, GetAll, DefAnswers, Scopes, Destroyed, ReplayPart;
    if g.Func? {
      var t1 := Enter(t).value;
      EnterCounts(t, t1);
      var r := ReplayPart(h, t1, Block(g.body)).value;
      PartEnters(h, t1, Block(g.body), r);
      DedentCounts(h, r.table, q.table);
    }
  }

  lemma {:induction false} GlobalsEnterMore(h: Hash, t: Table, gs: seq<Global>, q: Replayed)
    requires ReplayGlobals(h, t, gs) == Some(q)
    ensures EnteredMore(t, q.table, GlobalsEnter(gs))
    decreases |gs|
  {
    hide Scopes, Destroyed, ReplayGlobal, GlobalEnters;
    if gs != [] {
      var r := ReplayGlobal(h, t, gs[0]).value;
      GlobalEntersMore(h, t, gs[0], r);
      GlobalsEnterMore(h, r.table, gs[1..], ReplayGlobals(h, r.table, gs[1..]).value);
    }
  }

  // ----- whole programs -----

  /** The second pass, symbols_delete at its end included, does not go wrong and deletes every level. */
  ghost predicate Completes(h: Hash, f: Table, gs: seq<Global>)
  {
    var q := ReplayGlobals(h, f, gs);
    q.Some? && var z := Delete(h, q.value.table);
               z.Some? && forall l :: 0 <= l < |z.value.levels| ==> z.value.levels[l].Deleted()
  }

  /** In the build pass nothing is destroyed. */
  lemma {:induction false} NothingDestroyed(levels: seq<Level>)
    requires forall l :: 0 <= l < |levels| ==> levels[l].begin == 0
    ensures Destroyed(levels) == 0
  {
    if levels != [] {
      NothingDestroyed(levels[..|levels| - 1]);
    }
  }

  lemma StartScopes(h: Hash, lib: seq<string>)
    ensures Scopes(Initially(h, lib).levels) == 1
  {
    ParamScopes(h, Start(), lib);
    IndentScopes(Table([], seq(256, i => []), [], -1));
  }

  /** What the second pass does not enter is left when it is over. */
  lemma OnlyFaithfulCompletes(h: Hash, lib: seq<string>, gs: seq<Global>, f: Table)
    requires BuildGlobals(h, Initially(h, lib), gs) == Some(f) && Completes(h, f, gs)
    ensures FaithfulGlobals(gs)
  {
    hide BuildGlobals, ReplayGlobals, Initially, Dedent, BuildOk, Scopes, Destroyed;
    InitiallyOk(h, lib);
    GlobalsBuilt(h, Initially(h, lib), gs, f);
    StartScopes(h, lib);
    GlobalsScopes(h, Initially(h, lib), gs, f);
    NothingDestroyed(f.levels) by { InBuild(h, f); }
    var q := ReplayGlobals(h, f, gs).value;
    var z := Delete(h, q.table).value;
    GlobalsEnterMore(h, f, gs, q);
    DedentCounts(h, q.table, z);
    AllGone(z.levels);
    FaithfulGlobalsEnter(gs);
  }

  lemma InBuild(h: Hash, f: Table)
    requires BuildOk(h, f)
    ensures forall l :: 0 <= l < |f.levels| ==> f.levels[l].begin == 0
  {
  }

  /** For a program the build pass accepts, the second pass completes if and only if no scope follows a `return` in
      its block; and it completes with the build's answers, which are those of lexical scoping, if and only if
      moreover no global is declared later under a name looked up before. */
  lemma ReplayExactly(h: Hash, lib: seq<string>, gs: seq<Global>, f: Table)
    requires BuildGlobals(h, Initially(h, lib), gs) == Some(f)
    ensures Completes(h, f, gs) <==> FaithfulGlobals(gs)
    ensures var lex := LexGlobalTraces(LexParams(Lex([], []), lib), gs);
            Completes(h, f, gs) && ReplayGlobals(h, f, gs).value.trace == lex <==> FaithfulGlobals(gs) && Quiet(gs)
  {
    hide BuildGlobals, ReplayGlobals, Initially, GlobalTraces, LexGlobalTraces, Quiet, FaithfulGlobals;
    if FaithfulGlobals(gs) {
      var q, z := ReplayIsFaithful(h, lib, gs, f);
    } else if Completes(h, f, gs) {
      OnlyFaithfulCompletes(h, lib, gs, f);
    }
  }

  // ----- two programs -----

  /** `{ int n; ... n ... }` is accepted. */
  lemma DeclareAndUse(h: Hash, t: Table, n: string)
    requires BuildOk(h, t)
    ensures var t1 := BuildPart(h, t, Var(Last(Def(n, [])))); t1.Some? && BuildPart(h, t1.value, Use(n)) == t1
  {
    hide BuildOk, Indent, Add, Get, GetHere, Abs;
    IndentOk(h, t);
    var u := Indent(t);
    NotHere(h, u, n);
    AddOk(h, u, n);
    var t1 := Add(h, u, n);
    assert BuildDefs(h, u, false, Last(Def(n, []))) == Some(t1);
    GetIsLexical(h, t1, n);
    var x := Declare(Abs(u), n);
    assert x.env[|x.env| - 1] == |Abs(u).names| && x.names[|Abs(u).names|] == n;
  }

  /** A function whose name is new and whose body is accepted in its scope. */
  lemma FuncAccepted(h: Hash, t: Table, f: string, body: Parts) returns (t1: Table)
    requires BuildOk(h, t) && t.level == 0 && !ChainNames(t, f)
    requires forall u :: BuildOk(h, u) ==> BuildParts(h, u, body).Some?
    ensures BuildGlobal(h, t, Func(f, [], body)) == Some(t1) && BuildOk(h, t1) && t1.level == 0
    ensures forall n :: ChainNames(t1, n) ==> ChainNames(t, n) || n == f
  {
    hide BuildOk, GetHere, BuildParts, ChainNames, FuncScope, Indent;
    NotHere(h, t, f);
    FuncScopeBuilt(h, t, f, []);
    var v := FuncScope(h, t, f, []);
    IndentOk(h, v);
    t1 := BuildGlobal(h, t, Func(f, [], body)).value;
    FuncBuilt(h, t, Func(f, [], body), t1);
    FuncGlobals(h, t, Func(f, [], body), t1);
    OnlyNewName(h, t, t1, f);
  }

  lemma OnlyNewName(h: Hash, t: Table, t1: Table, f: string)
    requires t.level == t1.level == 0 && MoreGlobals(t, t1, [f]) && BuildOk(h, t)
    ensures forall n :: ChainNames(t1, n) ==> ChainNames(t, n) || n == f
  {
    forall n | ChainNames(t1, n) ensures ChainNames(t, n) || n == f {
      var x :| x in LevelAt(t1, t1.level).Chain() && Named(t1, x, n);
      if x in Globals(t) {
        assert x in t.levels[0].scopes[t.levels[0].scope] <==> DeclaredAt(t, x, 0, t.levels[0].scope);
        assert x in LevelAt(t, t.level).Chain() && Named(t, x, n);
      }
    }
  }

  lemma NoNames(h: Hash, n: string)
    ensures !ChainNames(Initially(h, []), n)
  {
    StartCounts();
    StartOk(h);
    assert Open(Start(), 0) == Open(Start(), -1) + LevelAt(Start(), 0).Chain();
  }

  const SKIPPED_BODY := Parts(Return, Parts(Block(NoParts), NoParts))

  const LOCAL_X := Parts(Var(Last(Def("x", []))), Parts(Use("x"), NoParts))

  /** `int f() { return 0; {} } int g() { int x; return x; }`: the replay skips the scope after the `return`, and
      that of x is still there when it is over. */
  lemma SkippedScopeFails(h: Hash) returns (f: Table)
    ensures var gs := [Func("f", [], SKIPPED_BODY), Func("g", [], LOCAL_X)];
            BuildGlobals(h, Initially(h, []), gs) == Some(f) && Quiet(gs) && !Completes(h, f, gs)
  {
    hide BuildOk, Completes, BuildGlobal, Initially, ChainNames;
    var gs := [Func("f", [], SKIPPED_BODY), Func("g", [], LOCAL_X)];
    InitiallyOk(h, []);
    NoNames(h, "f");
    NoNames(h, "g");
    SkippedAccepted(h);
    LocalAccepted(h, "x");
    var t1 := FuncAccepted(h, Initially(h, []), "f", SKIPPED_BODY);
    f := FuncAccepted(h, t1, "g", LOCAL_X);
    TwoGlobals(h, Initially(h, []), gs, t1, f);
    assert !AllFaithful(SKIPPED_BODY) && PartsUses(SKIPPED_BODY) == [];
    TwoQuiet(gs);
    ReplayExactly(h, [], gs, f);
  }

  lemma TwoGlobals(h: Hash, t: Table, gs: seq<Global>, u: Table, f: Table)
    requires |gs| == 2 && BuildGlobal(h, t, gs[0]) == Some(u) && BuildGlobal(h, u, gs[1]) == Some(f)
    ensures BuildGlobals(h, t, gs) == Some(f)
  {
    assert gs[1..] == [gs[1]] && gs[1..][1..] == [];
    assert BuildGlobals(h, u, gs[1..]) == BuildGlobals(h, f, []);
  }

  lemma TwoQuiet(gs: seq<Global>)
    requires |gs| == 2
    ensures Quiet(gs) <==> forall n :: n in GlobalUses(gs[0]) ==> n !in GlobalNames(gs[1])
    ensures FaithfulGlobals(gs) <==>
            (gs[0].Func? ==> AllFaithful(gs[0].body)) && (gs[1].Func? ==> AllFaithful(gs[1].body))
  {
    assert gs[1..] == [gs[1]] && gs[1..][1..] == [];
    var rest: seq<Global> := gs[1..];
    var none: seq<Global> := rest[1..];
    assert none == [] && rest[0] == gs[1];
    assert AllGlobalNames(none) == [] && Quiet(none) && FaithfulGlobals(none);
    assert AllGlobalNames(rest) == GlobalNames(gs[1]) + [];
  }

  lemma SkippedAccepted(h: Hash)
    ensures forall u :: BuildOk(h, u) ==> BuildParts(h, u, SKIPPED_BODY).Some?
  {
    assert forall u :: BuildParts(h, Indent(u), NoParts).Some?;
    forall u ensures BuildParts(h, u, SKIPPED_BODY).Some? {
      assert BuildPart(h, u, Block(NoParts)).Some?;
      assert BuildParts(h, u, Parts(Block(NoParts), NoParts)).Some?;
    }
  }

  lemma LocalAccepted(h: Hash, n: string)
    ensures forall u :: BuildOk(h, u) ==> BuildParts(h, u, Parts(Var(Last(Def(n, []))), Parts(Use(n), NoParts))).Some?
  {
    hide BuildOk, BuildPart;
    var rest := Parts(Use(n), NoParts);
    forall u | BuildOk(h, u) ensures BuildParts(h, u, Parts(Var(Last(Def(n, []))), rest)).Some? {
      DeclareAndUse(h, u, n);
      var t1 := BuildPart(h, u, Var(Last(Def(n, [])))).value;
      assert BuildParts(h, t1, rest) == BuildParts(h, t1, NoParts);
    }
  }

  /** `int f() { int x; return x; } int x;`: in the replay the later global hides the local. */
  lemma LaterGlobalFails(h: Hash) returns (f: Table)
    ensures var gs := [Func("f", [], LOCAL_X), GlobalVar(Last(Def("x", [])))];
            && BuildGlobals(h, Initially(h, []), gs) == Some(f) && Completes(h, f, gs)
            && ReplayGlobals(h, f, gs).value.trace != LexGlobalTraces(LexParams(Lex([], []), []), gs)
  {
    hide BuildOk, Completes, BuildGlobal, Initially, ChainNames, ReplayGlobals, LexGlobalTraces;
    var gs := [Func("f", [], LOCAL_X), GlobalVar(Last(Def("x", [])))];
    InitiallyOk(h, []);
    NoNames(h, "f");
    NoNames(h, "x");
    LocalAccepted(h, "x");
    var t1 := FuncAccepted(h, Initially(h, []), "f", LOCAL_X);
    f := GlobalAccepted(h, t1, "x");
    TwoGlobals(h, Initially(h, []), gs, t1, f);
    assert AllFaithful(LOCAL_X) && "x" in PartsUses(LOCAL_X);
    assert "x" in GlobalUses(gs[0]) && "x" in GlobalNames(gs[1]);
    TwoQuiet(gs);
    ReplayExactly(h, [], gs, f);
  }

  lemma GlobalAccepted(h: Hash, t: Table, n: string) returns (t1: Table)
    requires BuildOk(h, t) && !ChainNames(t, n)
    ensures BuildGlobal(h, t, GlobalVar(Last(Def(n, [])))) == Some(t1)
  {
    NotHere(h, t, n);
    t1 := Add(h, t, n);
  }
}
