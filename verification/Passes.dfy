/**
 * The two walks over the tree that drive the symbol table, and the check on `break` and `continue`.
 */
module Passes {
  import opened Words
  import opened Symbols
  import opened SymbolsAccept
  import opened SymbolsBuild
  import opened SymbolsReplay
  import LoopPaths
  import T = SymbolTable
  import Source

  // ----- src/semantic.c -----

  /** ConstDef and VarDef of one declaration; false for an error */
  method BuildDeclared(h: Hash, t: T.SymbolTable, isConst: bool, defs: Defs) returns (ok: bool)
    requires t.Valid() && BuildOk(h, t.Contents())
    modifies t
    ensures ok <==> BuildDefs(h, old(t.Contents()), isConst, defs).Some?
    ensures ok ==> t.Valid() && BuildOk(h, t.Contents())
    ensures ok ==> t.Contents() == BuildDefs(h, old(t.Contents()), isConst, defs).value
    decreases defs
  {
    ghost var was := t.Contents();
    var d := defs.def;
    var known := t.GetHere(h, d.name);
    if known.Some? {
      return false;
    }
    if isConst {
      ok := AllDefined(h, t, d.uses);
      if !ok {
        return;
      }
    }
    AddOk(h, was, d.name);
    InLevels(h, was);
    LevelScopes(h, was);
    var _ := t.Add(h, d.name);
    if defs.Last? {
      return true;
    }
    ok := BuildDeclared(h, t, isConst, defs.rest);
  }

  lemma LevelScopes(h: Hash, t: Table)
    requires BuildOk(h, t)
    ensures 0 <= t.level < |t.levels| && 0 <= t.levels[t.level].scope < |t.levels[t.level].scopes|
  {
  }

  /** Whether every name of a constant's initialiser is defined */
  method AllDefined(h: Hash, t: T.SymbolTable, ns: seq<string>) returns (ok: bool)
    ensures ok <==> !exists n :: n in ns && Get(h, t.Contents(), n).None?
  {
    var i := 0;
    while i < |ns|
      invariant 0 <= i <= |ns| && forall j :: 0 <= j < i ==> Get(h, t.Contents(), ns[j]).Some?
    {
      var found := t.Get(h, ns[i]);
      if found.None? {
        assert ns[i] in ns;
        return false;
      }
      i := i + 1;
    }
    ok := true;
  }

  /** Block, Decl and Stmt, as far as names go; false for an error */
  method BuildOne(h: Hash, t: T.SymbolTable, ghost b: int, p: Part) returns (ok: bool)
    requires t.Valid() && BuildOk(h, t.Contents()) && Opened(t.Contents(), b)
    modifies t
    ensures ok <==> BuildPart(h, old(t.Contents()), p).Some?
    ensures ok <==> Scoped(Visible(Abs(old(t.Contents()))), p)
    ensures ok ==> t.Valid() && t.Contents() == BuildPart(h, old(t.Contents()), p).value
    ensures ok ==> BuildOk(h, t.Contents()) && Opened(t.Contents(), b)
    decreases p, 1
  {
    hide BuildOk, Opened, Scoped, Visible, Abs;
    ghost var was := t.Contents();
    PartAccepted(h, was, b, p);
    match p {
      case Use(n) =>
        var found := t.Get(h, n);
        ok := found.Some?;
      case Return => ok := true;
      case Const(defs) =>
        IndentOk(h, was);
        t.Indent();
        ok := BuildDeclared(h, t, true, defs);
      case Var(defs) =>
        IndentOk(h, was);
        t.Indent();
        ok := BuildDeclared(h, t, false, defs);
      case Block(_) => ok := BuildBlock(h, t, p);
    }
    if ok { PartBuilt(h, was, b, p, t.Contents()); }
  }

  /** symbols_indent, the items, symbols_leave */
  method BuildBlock(h: Hash, t: T.SymbolTable, p: Part) returns (ok: bool)
    requires t.Valid() && BuildOk(h, t.Contents()) && p.Block?
    modifies t
    ensures ok <==> BuildPart(h, old(t.Contents()), p).Some?
    ensures ok ==> t.Valid() && t.Contents() == BuildPart(h, old(t.Contents()), p).value && BuildOk(h, t.Contents())
    decreases p, 0
  {
    ghost var was := t.Contents();
    IndentOk(h, was);
    InLevels(h, was);
    InLevels(h, Symbols.Indent(was));
    hide BuildOk;
    t.Indent();
    assert Opened(t.Contents(), t.level);
    ok := BuildAll(h, t, t.level, p.parts);
    if ok {
      InLevels(h, t.Contents());
      t.Leave();
      BlockBuilt(h, was, p, t.Contents());
    }
  }

  /** BlockItemList: every item, also those after a `return` */
  method BuildAll(h: Hash, t: T.SymbolTable, ghost b: int, ps: Parts) returns (ok: bool)
    requires t.Valid() && BuildOk(h, t.Contents()) && Opened(t.Contents(), b)
    modifies t
    ensures ok <==> BuildParts(h, old(t.Contents()), ps).Some?
    ensures ok <==> AllScoped(Visible(Abs(old(t.Contents()))), ps)
    ensures ok ==> t.Valid() && t.Contents() == BuildParts(h, old(t.Contents()), ps).value
    ensures ok ==> BuildOk(h, t.Contents()) && Opened(t.Contents(), b)
    decreases ps, 0
  {
    hide BuildOk, Opened, AllScoped, Visible, Abs;
    ghost var was := t.Contents();
    PartsAccepted(h, was, b, ps);
    var rest := ps;
    while rest.Parts?
      invariant t.Valid() && BuildOk(h, t.Contents()) && Opened(t.Contents(), b)
      invariant BuildParts(h, was, ps) == BuildParts(h, t.Contents(), rest)
      invariant rest == ps || rest < ps
      decreases rest
    {
      ok := BuildOne(h, t, b, rest.head);
      if !ok {
        return;
      }
      rest := rest.tail;
    }
    ok := true;
  }

  /** FuncFParamList of src/semantic.c, and init_lib: names are added with no check */
  method AddAll(h: Hash, t: T.SymbolTable, ns: seq<string>)
    requires t.Valid() && BuildOk(h, t.Contents())
    modifies t
    ensures t.Valid() && t.Contents() == AddParams(h, old(t.Contents()), ns) && BuildOk(h, t.Contents())
  {
    hide BuildOk, Symbols.Add;
    ghost var was := t.Contents();
    var i := 0;
    while i < |ns|
      invariant 0 <= i <= |ns| && t.Valid() && BuildOk(h, t.Contents())
      invariant t.Contents() == AddParams(h, was, ns[..i])
    {
      AddOk(h, t.Contents(), ns[i]);
      InLevels(h, t.Contents());
      LevelScopes(h, t.Contents());
      var _ := t.Add(h, ns[i]);
      i := i + 1;
      assert ns[..i][..i - 1] == ns[..i - 1];
    }
    assert ns[..i] == ns;
  }

  /** Global and FuncDef; false for an error */
  method BuildTop(h: Hash, t: T.SymbolTable, g: Global) returns (ok: bool)
    requires t.Valid() && BuildOk(h, t.Contents()) && t.level == 0
    modifies t
    ensures ok <==> BuildGlobal(h, old(t.Contents()), g).Some?
    ensures ok ==> t.Valid() && t.Contents() == BuildGlobal(h, old(t.Contents()), g).value
    ensures ok ==> BuildOk(h, t.Contents()) && t.level == 0
  {
    hide BuildOk, BuildDefs, BuildPart, Symbols.Indent, Symbols.Add, AddParams, Symbols.GetHere;
    ghost var was := t.Contents();
    match g {
      case GlobalConst(defs) => ok := BuildDeclared(h, t, true, defs);
      case GlobalVar(defs) => ok := BuildDeclared(h, t, false, defs);
      case Func(f, ps, body) =>
        var known := t.GetHere(h, f);
        if known.Some? {
          return false;
        }
        AddOk(h, was, f);
        InLevels(h, was);
        LevelScopes(h, was);
        var _ := t.Add(h, f);
        IndentOk(h, t.Contents());
        t.Indent();
        AddAll(h, t, ps);
        ok := BuildBlock(h, t, Block(body));
        if ok {
          InLevels(h, t.Contents());
          t.Leave();
        }
    }
    if ok { GlobalBuilt(h, was, g, t.Contents()); }
  }

  /** semantic: the library's names and then every global, in order, up to an error */
  method BuildProgram(h: Hash, lib: seq<string>, gs: seq<Global>) returns (ok: bool, t: T.SymbolTable)
    ensures fresh(t)
    ensures ok <==> Accepted(lib, gs)
    ensures ok ==> t.Valid() && BuildGlobals(h, Initially(h, lib), gs) == Some(t.Contents())
  {
    hide BuildOk, BuildGlobal, Accepted, AddParams, Start;
    t := new T.SymbolTable();
    StartOk(h);
    AddAll(h, t, lib);
    InitiallyOk(h, lib);
    AcceptsExactly(h, lib, gs);
    ghost var was := t.Contents();
    var i := 0;
    assert gs[0..] == gs;
    while i < |gs|
      invariant 0 <= i <= |gs| && t.Valid() && BuildOk(h, t.Contents()) && t.level == 0 && fresh(t)
      invariant BuildGlobals(h, was, gs) == BuildGlobals(h, t.Contents(), gs[i..])
    {
      ok := BuildTop(h, t, gs[i]);
      if !ok {
        return;
      }
      assert gs[i..][1..] == gs[i + 1..];
      i := i + 1;
    }
    ok := true;
  }

  // ----- src/ir.c -----

  /** VarDef of every name of a declaration: its own symbol, then its initialiser */
  method Answers(h: Hash, t: T.SymbolTable, defs: Defs) returns (trace: Trace)
    ensures trace == DefAnswers(h, t.Contents(), defs)
    decreases defs
  {
    var own := t.GetHere(h, defs.def.name);
    var used := LookAll(h, t, defs.def.uses);
    trace := [own] + used;
    if defs.More? {
      var more := Answers(h, t, defs.rest);
      trace := trace + more;
    } else {
      trace := trace + [];
    }
  }

  method LookAll(h: Hash, t: T.SymbolTable, ns: seq<string>) returns (trace: Trace)
    ensures trace == GetAll(h, t.Contents(), ns)
  {
    trace := [];
    var i := 0;
    assert ns[0..] == ns;
    while i < |ns|
      invariant 0 <= i <= |ns| && trace + GetAll(h, t.Contents(), ns[i..]) == GetAll(h, t.Contents(), ns)
    {
      var found := t.Get(h, ns[i]);
      assert ns[i..][1..] == ns[i + 1..];
      trace := trace + [found];
      i := i + 1;
    }
  }

  /** Block, Decl and the lookups of statements; false once the pass has gone wrong */
  method ReplayOne(h: Hash, t: T.SymbolTable, p: Part) returns (ok: bool, trace: Trace)
    requires t.Valid()
    modifies t
    ensures ok <==> ReplayPart(h, old(t.Contents()), p).Some?
    ensures ok ==> t.Valid() && Replayed(t.Contents(), trace) == ReplayPart(h, old(t.Contents()), p).value
    decreases p
  {
    ok, trace := true, [];
    match p
    case Use(n) =>
      var found := t.Get(h, n);
      trace := [found];
    case Return =>
    case Const(_) => ok := t.Enter();
    case Var(defs) =>
      ok := t.Enter();
      if ok {
        trace := Answers(h, t, defs);
      }
    case Block(parts) =>
      ok := t.Enter();
      if ok {
        ok, trace := ReplayAll(h, t, parts);
        if ok {
          ok := t.Dedent(h);
        }
      }
  }

  /** BlockItemList: stops after a `return` */
  method ReplayAll(h: Hash, t: T.SymbolTable, ps: Parts) returns (ok: bool, trace: Trace)
    requires t.Valid()
    modifies t
    ensures ok <==> ReplayParts(h, old(t.Contents()), ps).Some?
    ensures ok ==> t.Valid() && Replayed(t.Contents(), trace) == ReplayParts(h, old(t.Contents()), ps).value
    decreases ps
  {
    ghost var was := t.Contents();
    ok, trace := true, [];
    var rest, returned := ps, false;
    ThenThen([], [], ReplayParts(h, was, ps));
    while rest.Parts? && !returned
      invariant t.Valid() && (rest == ps || rest < ps)
      invariant Then(trace, if returned then Some(Replayed(t.Contents(), []))
                     else ReplayParts(h, t.Contents(), rest)) ==
                ReplayParts(h, was, ps)
      decreases rest
    {
      var more;
      ok, more := ReplayOne(h, t, rest.head);
      if !ok {
        return;
      }
      returned := rest.head.Return?;
      ThenThen(trace, more, if returned then Some(Replayed(t.Contents(), []))
               else ReplayParts(h, t.Contents(), rest.tail));
      trace := trace + more;
      rest := rest.tail;
    }
    assert trace + [] == trace;
    ok := true;
  }

  /** Global and FuncDef of src/ir.c; false once the pass has gone wrong */
  method ReplayTop(h: Hash, t: T.SymbolTable, g: Global) returns (ok: bool, trace: Trace)
    requires t.Valid()
    modifies t
    ensures ok <==> ReplayGlobal(h, old(t.Contents()), g).Some?
    ensures ok ==> t.Valid() && Replayed(t.Contents(), trace) == ReplayGlobal(h, old(t.Contents()), g).value
  {
    hide Symbols.Enter, Symbols.Dedent, Symbols.Get, ReplayParts, DefAnswers, GetAll;
    ok, trace := true, [];
    match g
    case GlobalConst(_) =>
    case GlobalVar(defs) => trace := Answers(h, t, defs);
    case Func(f, ps, body) =>
      var own := t.Get(h, f);
      ok := t.Enter();
      if ok {
        var params := LookAll(h, t, ps);
        ok, trace := ReplayOne(h, t, Block(body));
        if ok {
          ok := t.Dedent(h);
          trace := [own] + params + trace;
        }
      }
  }

  /** ir, as far as names go: every global in order, and symbols_delete at the end */
  method ReplayProgram(h: Hash, t: T.SymbolTable, gs: seq<Global>) returns (ok: bool, trace: Trace)
    requires t.Valid()
    modifies t
    ensures ok <==> ReplayGlobals(h, old(t.Contents()), gs).Some?
                    && Delete(h, ReplayGlobals(h, old(t.Contents()), gs).value.table).Some?
    ensures ok ==> trace == ReplayGlobals(h, old(t.Contents()), gs).value.trace
    ensures ok ==> t.Valid()
                   && Delete(h, ReplayGlobals(h, old(t.Contents()), gs).value.table) == Some(t.Contents())
  {
    hide ReplayGlobal, Symbols.Dedent;
    ghost var was := t.Contents();
    trace := [];
    var i := 0;
    assert gs[0..] == gs;
    ThenThen([], [], ReplayGlobals(h, was, gs));
    while i < |gs|
      invariant 0 <= i <= |gs| && t.Valid()
      invariant Then(trace, ReplayGlobals(h, t.Contents(), gs[i..])) == ReplayGlobals(h, was, gs)
    {
      var more;
      ok, more := ReplayTop(h, t, gs[i]);
      if !ok {
        return;
      }
      assert gs[i..][1..] == gs[i + 1..];
      ThenThen(trace, more, ReplayGlobals(h, t.Contents(), gs[i + 1..]));
      trace := trace + more;
      i := i + 1;
    }
    assert trace + [] == trace;
    ok := t.Dedent(h);
  }

  /** Answers given before those of r. */
  function Then(trace: Trace, r: Option<Replayed>): Option<Replayed>
  {
    match r
    case None => None
    case Some(q) => Some(Replayed(q.table, trace + q.trace))
  }

  lemma ThenThen(a: Trace, b: Trace, r: Option<Replayed>)
    ensures Then(a, Then(b, r)) == Then(a + b, r)
    ensures Then([], r) == r
  {
    if r.Some? {
      assert a + (b + r.value.trace) == (a + b) + r.value.trace;
      assert [] + r.value.trace == r.value.trace;
    }
  }

  // ----- break and continue -----

  class Nesting {
    var inWhile: bool                  // m_while

    constructor ()
      ensures !inWhile
    {
      inWhile := false;
    }

    /** The part of Stmt that rejects a `break` or `continue` outside any loop */
    method Stmt(st: Source.Stmt) returns (ok: bool)
      modifies this
      ensures ok <==> Source.WellNested(st, old(inWhile))
      ensures ok <==> old(inWhile) || LoopPaths.AllUnderLoops(st)
      ensures ok ==> inWhile == old(inWhile)
      decreases st, 0
    {
      if inWhile { LoopPaths.LoopsAllow(st); } else { LoopPaths.NestedExactly(st); }
      var thisWhile := inWhile;
      ok := true;
      match st
      case Block(items) => ok := Items(items);
      case If(_, t, f) =>
        ok := Stmt(t);
        if ok && f.Some? {
          ok := Stmt(f.value);
        }
      case While(_, body) =>
        inWhile := true;
        ok := Stmt(body);
        if ok {
          inWhile := thisWhile;
        }
      case Break => ok := inWhile;
      case Continue => ok := inWhile;
      case _ =>
    }

    method Items(items: Source.Items) returns (ok: bool)
      modifies this
      ensures ok <==> Source.ItemsWellNested(items, old(inWhile))
      ensures ok ==> inWhile == old(inWhile)
      decreases items, 0
    {
      var rest := items;
      while rest.Items?
        invariant inWhile == old(inWhile) && (rest == items || rest < items)
        invariant Source.ItemsWellNested(items, inWhile) <==> Source.ItemsWellNested(rest, inWhile)
        decreases rest
      {
        if rest.head.Stm? {
          ok := Stmt(rest.head.s);
          if !ok {
            return;
          }
        }
        rest := rest.tail;
      }
      ok := true;
    }
  }
}
