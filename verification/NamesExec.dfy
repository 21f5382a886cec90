/**
 * Statements, functions and calls with names, and with numbers in their place.
 */
module NamesExec {
  import opened Words
  import opened Names
  import opened NamesMeaning
  import opened NamesRun
  import opened SymbolsBuild
  import Folding
  import Source

  // ----- constants -----

  lemma SettledIs(k: Meanings, x: Lex, scopes: Scopes, locals: map<nat, Word>, e: Exp)
    requires Rep(k, x, scopes, locals) && ExpNamed(k, x, e)
    requires Folding.ConstantExp(LexExp(k, x, e)) && Folding.OperandsAgree(LexExp(k, x, e))
    ensures Settled(scopes, Some(e)) == Some(FoldedTo(k, x, Some(e)))
  {
    hide Rep, Value, LexExp, Source.EvalExp, Folding.Fold, Folding.OperandsAgree, Folding.ConstantExp;
    var s := Source.Store(locals, Source.World(map[], []));
    assert SameCalls(NoCalls(), NoCalls());
    ValueRuns(NoCalls(), NoCalls(), k, x, scopes, e, s);
    Folding.FoldIsRunTime(NoCalls(), LexExp(k, x, e), s);
  }

  /** A constant's binding has the value the first pass gives it. */
  lemma {:induction false} ConstsRun(k: Meanings, x: Lex, scopes: Scopes, locals: map<nat, Word>, defs: NamedDefs)
    requires Rep(k, x, scopes, locals) && ConstsNamed(k, x, defs) && ConstsSay(k, x, defs)
    ensures Bind(scopes, defs).Some? && Rep(k, LexDefs(x, DefsOf(defs)), Bind(scopes, defs).value, locals)
    ensures var more := Bind(scopes, defs).value;
            scopes <= more && forall i :: |scopes| <= i < |more| ==> more[i].what.Constant?
    decreases defs
  {
    hide Rep, ExpNamed, LexExp, Folding.OperandsAgree, Folding.ConstantExp, Settled, FoldedTo;
    var e := defs.def.init.value;
    SettledIs(k, x, scopes, locals, e);
    var v := FoldedTo(k, x, Some(e));
    RepBind(k, x, scopes, locals, defs.def.name, Constant(v), locals);
    if defs.Many? {
      ConstsRun(k, Declare(x, defs.def.name), scopes + [Binding(defs.def.name, Constant(v))], locals, defs.rest);
    }
  }

  // ----- variables -----

  predicate Numbered(x: Lex) { forall i :: 0 <= i < |x.env| ==> x.env[i] < |x.names| }

  lemma RepNumbered(k: Meanings, x: Lex, scopes: Scopes, locals: map<nat, Word>)
    requires Rep(k, x, scopes, locals)
    ensures Numbered(x)
  {
    forall i | 0 <= i < |x.env| ensures x.env[i] < |x.names| { assert SuitsAt(k, x, scopes, locals, i); }
  }

  lemma {:induction false} LookupSame(x: Lex, y: Lex, n: string)
    requires Numbered(x) && x.names <= y.names && y.env == x.env
    ensures Lookup(x, n) == Lookup(y, n)
    decreases |x.env|
  {
    if x.env != [] {
      var init := x.env[..|x.env| - 1];
      LookupSame(x.(env := init), y.(env := init), n);
    }
  }

  lemma LookupDeclare(x: Lex, m: string, n: string)
    requires Numbered(x)
    ensures Lookup(Declare(x, m), n) == if m == n then Some(|x.names|) else Lookup(x, n)
    ensures Numbered(Declare(x, m))
  {
    var y := Declare(x, m);
    assert y.env[..|y.env| - 1] == x.env;
    LookupSame(x, y.(env := x.env), n);
  }

  /** Names that a list does not declare mean the same after it. */
  lemma {:induction false} LookupPast(x: Lex, defs: NamedDefs, n: string)
    requires Numbered(x) && n !in DefinedNames(defs)
    ensures Lookup(LexDefs(x, DefsOf(defs)), n) == Lookup(x, n)
    decreases defs
  {
    LookupDeclare(x, defs.def.name, n);
    if defs.Many? { LookupPast(Declare(x, defs.def.name), defs.rest, n); }
  }

  lemma {:induction false} SameExp(k: Meanings, x: Lex, y: Lex, e: Exp)
    requires forall n :: n in Uses(e) ==> Lookup(x, n) == Lookup(y, n)
    ensures LexExp(k, x, e) == LexExp(k, y, e)
    decreases e
  {
    match e
    case Number(_) =>
    case Name(n) => assert n in Uses(e);
    case Apply(f, args) =>
      assert f in Uses(e);
      SameArgs(k, x, y, args);
    case Same(e0) => SameExp(k, x, y, e0);
    case Minus(e0) => SameExp(k, x, y, e0);
    case Opposite(e0) => SameExp(k, x, y, e0);
    case Arith(_, l, r) =>
      SameExp(k, x, y, l);
      SameExp(k, x, y, r);
    case Logical(_, l, r) =>
      SameExp(k, x, y, l);
      SameExp(k, x, y, r);
  }

  lemma {:induction false} SameArgs(k: Meanings, x: Lex, y: Lex, es: Exps)
    requires forall n :: n in ArgsUses(es) ==> Lookup(x, n) == Lookup(y, n)
    ensures LexArgs(k, x, es) == LexArgs(k, y, es)
    decreases es
  {
    if es.Exps? {
      SameExp(k, x, y, es.head);
      SameArgs(k, x, y, es.tail);
    }
  }

  // ----- outcomes -----

  predicate AlikeState(k: Meanings, x: Lex, s: State, t: Source.Store)
  {
    |x.env| <= |s.scopes| && Rep(k, x, s.scopes[..|x.env|], t.locals) && s.w == t.w
  }

  /** The same end, in states that agree on the bindings of x. */
  predicate Alike(k: Meanings, x: Lex, r: Outcome, t: Source.Outcome)
  {
    match r
    case Normal(s) => t.Normal? && AlikeState(k, x, s, t.s)
    case Broke(s) => t.Broke? && AlikeState(k, x, s, t.s)
    case Continued(s) => t.Continued? && AlikeState(k, x, s, t.s)
    case Returned(v, w) => t == Source.Returned(v, w)
    case Wrong => t == Source.Wrong
    case OutOfFuel => t == Source.OutOfFuel
  }

  /** A statement leaves no bindings. */
  predicate Level(r: Outcome, n: nat)
  {
    match r
    case Normal(s) => |s.scopes| == n
    case Broke(s) => |s.scopes| == n
    case Continued(s) => |s.scopes| == n
    case _ => true
  }

  lemma WholeState(k: Meanings, x: Lex, s: State, t: Source.Store)
    requires |s.scopes| == |x.env|
    ensures AlikeState(k, x, s, t) <==> Rep(k, x, s.scopes, t.locals) && s.w == t.w
  {
    assert s.scopes[..|x.env|] == s.scopes;
  }

  lemma AlikeLess(k: Meanings, x: Lex, y: Lex, r: Outcome, t: Source.Outcome)
    requires Alike(k, y, r, t) && Numbered(x) && x.names <= y.names && x.env <= y.env
    ensures Alike(k, x, r, t)
  {
    if r.Normal? || r.Broke? || r.Continued? {
      var a := r.s.scopes;
      RepLess(k, x, y, a[..|y.env|], t.s.locals);
      assert a[..|y.env|][..|x.env|] == a[..|x.env|];
    }
  }

  lemma AlikeMore(k: Meanings, x: Lex, y: Lex, r: Outcome, t: Source.Outcome)
    requires Alike(k, x, r, t) && x.names <= y.names && y.env == x.env
    ensures Alike(k, y, r, t)
  {
    if r.Normal? || r.Broke? || r.Continued? {
      RepMore(k, x, y, r.s.scopes[..|x.env|], t.s.locals);
    }
  }

  // ----- declarations -----

  lemma {:induction false} VarsRun(o: Source.Oracle, q: Source.Oracle, k: Meanings, x: Lex, y: Lex, scopes: Scopes,
                                   defs: NamedDefs, s: Source.Store)
    requires Rep(k, x, scopes, s.locals) && SameCalls(o, q) && y == LexDefs(x, DefsOf(defs))
    requires VarsNamed(k, x, defs) && VarsSay(k, |x.names|, LocalVar, defs)
    ensures var r := RunVars(o, defs, State(scopes, s.w));
            Alike(k, y, r, Source.ExecDefs(q, LexVars(k, y, defs), s)) && Level(r, |y.env|)
    decreases defs
  {
    hide Rep, SameCalls, Value, Source.EvalExp, LexExp, ExpNamed, Lookup;
    var NamedDef(n, init) := defs.def;
    var d, x1 := |x.names|, Declare(x, n);
    RepNumbered(k, x, scopes, s.locals);
    OwnNumber(x, defs);
    var s0 := s.(locals := s.locals - {d});
    var made := scopes + [Binding(n, Cell(None))];
    RepBind(k, x, scopes, s.locals, n, Cell(None), s0.locals);
    if init.Some? {
      InitSame(k, x, defs);
      ValueRuns(o, q, k, x1, made, init.value, s0);
      var r := Value(o, made, init.value, s.w);
      if r.Got? {
        var s1 := Source.Write(s0.(w := r.w), Source.Local(d), r.v);
        RepBind(k, x, scopes, s.locals, n, Cell(Some(r.v)), s1.locals);
        RestRuns(o, q, k, x1, y, scopes + [Binding(n, Cell(Some(r.v)))], defs, s1);
      }
    } else {
      RestRuns(o, q, k, x1, y, made, defs, s0);
    }
  }

  /** What follows in the list, and its end. */
  lemma {:induction false} RestRuns(o: Source.Oracle, q: Source.Oracle, k: Meanings, x1: Lex, y: Lex, scopes: Scopes,
                                    defs: NamedDefs, s: Source.Store)
    requires Rep(k, x1, scopes, s.locals) && SameCalls(o, q)
    requires defs.Many? ==> y == LexDefs(x1, DefsOf(defs.rest))
                            && VarsNamed(k, x1, defs.rest) && VarsSay(k, |x1.names|, LocalVar, defs.rest)
    requires defs.One? ==> y == x1
    ensures var r := if defs.One? then Normal(State(scopes, s.w)) else RunVars(o, defs.rest, State(scopes, s.w));
            var t := Source.ExecDefs(q, if defs.One? then Source.NoDefs else LexVars(k, y, defs.rest), s);
            Alike(k, y, r, t) && Level(r, |y.env|)
    decreases defs, 0
  {
    if defs.Many? {
      VarsRun(o, q, k, x1, y, scopes, defs.rest, s);
    } else {
      WholeState(k, y, State(scopes, s.w), s);
    }
  }

  /** The name a definition declares has the next number, also when the whole list is in. */
  lemma OwnNumber(x: Lex, defs: NamedDefs)
    requires Numbered(x) && (defs.Many? ==> defs.def.name !in DefinedNames(defs.rest))
    ensures Lookup(LexDefs(x, DefsOf(defs)), defs.def.name) == Some(|x.names|)
  {
    var n := defs.def.name;
    LookupDeclare(x, n, n);
    if defs.Many? { LookupPast(Declare(x, n), defs.rest, n); }
  }

  /** An initialiser means the same with and without the rest of the list. */
  lemma InitSame(k: Meanings, x: Lex, defs: NamedDefs)
    requires Numbered(x) && defs.def.init.Some?
    requires defs.Many? ==> forall n :: n in InitUses(defs.def.init) ==> n !in DefinedNames(defs.rest)
    ensures var e := defs.def.init.value;
            LexExp(k, LexDefs(x, DefsOf(defs)), e) == LexExp(k, Declare(x, defs.def.name), e)
  {
    var e, x1, y := defs.def.init.value, Declare(x, defs.def.name), LexDefs(x, DefsOf(defs));
    forall n | n in Uses(e) ensures Lookup(y, n) == Lookup(x1, n) {
      LookupDeclare(x, defs.def.name, n);
      if defs.Many? { LookupPast(x1, defs.rest, n); }
    }
    SameExp(k, y, x1, e);
  }

  // ----- statements -----

  lemma KeepRuns(k: Meanings, x: Lex, scopes: Scopes, n: string, v: Word, s: Source.Store)
    requires Rep(k, x, scopes, s.locals) && Lookup(x, n).Some?
    requires k(Lookup(x, n).value).LocalVar? || k(Lookup(x, n).value).GlobalVar?
    ensures var r, t := Keep(State(scopes, s.w), n, v), Source.Write(s, VariableOf(k, Lookup(x, n)), v);
            r.Normal? && |r.s.scopes| == |x.env| && Rep(k, x, r.s.scopes, t.locals) && r.s.w == t.w
  {
    Found(k, x, scopes, s.locals, n);
    var p := Place(scopes, n).value;
    var d := x.env[p];
    if k(d).LocalVar? {
      var more, locals := scopes[p := Binding(n, Cell(Some(v)))], s.locals[d := v];
      forall i: nat | i < |more| ensures SuitsAt(k, x, more, locals, i) {
        assert SuitsAt(k, x, scopes, s.locals, i);
        if i < p { assert x.env[i] < x.env[p]; }
        if i > p { assert x.env[p] < x.env[i]; }
      }
    }
  }

  /** Ending in a state that agrees. */
  lemma EndsAlike(k: Meanings, x: Lex, scopes: Scopes, s: Source.Store)
    requires Rep(k, x, scopes, s.locals)
    ensures var here := State(scopes, s.w);
            && |scopes| == |x.env| && Alike(k, x, Normal(here), Source.Normal(s))
            && Alike(k, x, Broke(here), Source.Broke(s)) && Alike(k, x, Continued(here), Source.Continued(s))
  {
    WholeState(k, x, State(scopes, s.w), s);
  }

  /** And what such an end means. */
  lemma AlikeMeans(k: Meanings, x: Lex, r: Outcome, t: Source.Outcome)
    requires Alike(k, x, r, t) && Level(r, |x.env|)
    ensures r.Normal? || r.Broke? || r.Continued? ==> Rep(k, x, r.s.scopes, t.s.locals) && r.s.w == t.s.w
    ensures (r.Normal? <==> t.Normal?) && (r.Broke? <==> t.Broke?) && (r.Continued? <==> t.Continued?)
  {
    if r.Normal? || r.Broke? || r.Continued? { WholeState(k, x, r.s, t.s); }
  }

  /** A block takes its bindings away. */
  lemma CloseAlike(k: Meanings, x: Lex, r: Outcome, t: Source.Outcome)
    requires Alike(k, x, r, t)
    ensures Alike(k, x, Close(r, |x.env|), t) && Level(Close(r, |x.env|), |x.env|)
  {
    if r.Normal? || r.Broke? || r.Continued? {
      assert r.s.scopes[..|x.env|][..|x.env|] == r.s.scopes[..|x.env|];
    }
  }

  /** A value, or the end of everything. */
  lemma ValueThen(o: Source.Oracle, q: Source.Oracle, k: Meanings, x: Lex, scopes: Scopes, e: Exp, s: Source.Store)
    requires Rep(k, x, scopes, s.locals) && ExpNamed(k, x, e) && SameCalls(o, q)
    ensures var g, r := Value(o, scopes, e, s.w), Source.EvalExp(q, LexExp(k, x, e), s);
            && (g.Got? <==> r.Value?)
            && (g.Got? ==> r.v == g.v && r.s == s.(w := g.w))
            && (!g.Got? ==> Alike(k, x, Failed(g), Source.Failed(r)) && Level(Failed(g), |x.env|))
            && (g.Got? ==> Alike(k, x, Returned(Some(g.v), g.w), Source.Returned(Some(r.v), r.s.w)))
  {
    hide Rep, SameCalls;
    ValueRuns(o, q, k, x, scopes, e, s);
  }

  lemma SetRuns(o: Source.Oracle, q: Source.Oracle, fuel: nat, k: Meanings, x: Lex, scopes: Scopes, st: Stmt,
                s: Source.Store)
    requires Rep(k, x, scopes, s.locals) && SameCalls(o, q) && st.Set? && StmtNamed(k, x, st)
    ensures var r := Run(o, fuel, st, State(scopes, s.w));
            Alike(k, x, r, Source.Exec(q, fuel, LexStmt(k, x, st), s)) && Level(r, |x.env|)
  {
    hide Rep, SameCalls, Value, Source.EvalExp, LexExp, ExpNamed, Lookup, Alike, Keep;
    ValueThen(o, q, k, x, scopes, st.e, s);
    var g := Value(o, scopes, st.e, s.w);
    if g.Got? {
      var s1 := s.(w := g.w);
      KeepRuns(k, x, scopes, st.name, g.v, s1);
      EndsAlike(k, x, Keep(State(scopes, g.w), st.name, g.v).s.scopes,
                Source.Write(s1, VariableOf(k, Lookup(x, st.name)), g.v));
    }
  }

  lemma {:induction false} StmtRuns(o: Source.Oracle, q: Source.Oracle, fuel: nat, k: Meanings, x: Lex, scopes: Scopes,
                                    st: Stmt, s: Source.Store)
    requires Rep(k, x, scopes, s.locals) && SameCalls(o, q) && StmtNamed(k, x, st) && StmtSays(k, x, st)
    ensures var r := Run(o, fuel, st, State(scopes, s.w));
            Alike(k, x, r, Source.Exec(q, fuel, LexStmt(k, x, st), s)) && Level(r, |x.env|)
    decreases fuel, st, 1
  {
    EndsAlike(k, x, scopes, s);
    match st
    case Set(n, e) => SetRuns(o, q, fuel, k, x, scopes, st, s);
    case Do(e) =>
      hide Rep, SameCalls, Value, Source.EvalExp, LexExp, ExpNamed, Alike;
      ValueThen(o, q, k, x, scopes, e, s);
      var g := Value(o, scopes, e, s.w);
      if g.Got? { EndsAlike(k, x, scopes, s.(w := g.w)); }
    case Compound(items) =>
      hide Rep, SameCalls, Alike, RunItems, Source.ExecItems, LexItems;
      ItemsRun(o, q, fuel, k, x, scopes, items, s);
      CloseAlike(k, x, RunItems(o, fuel, items, State(scopes, s.w)),
                 Source.ExecItems(q, fuel, LexItems(k, x, items), s));
    case Give(ret) =>
      if ret.Some? {
        hide Rep, SameCalls, Value, Source.EvalExp, LexExp, ExpNamed, Alike;
        ValueThen(o, q, k, x, scopes, ret.value, s);
      }
    case Choose(c, t, f) => ChooseRuns(o, q, fuel, k, x, scopes, st, s);
    case Loop(c, body) => LoopRuns(o, q, fuel, k, x, scopes, st, s);
    case _ =>
  }

  lemma {:induction false} ChooseRuns(o: Source.Oracle, q: Source.Oracle, fuel: nat, k: Meanings, x: Lex,
                                      scopes: Scopes, st: Stmt, s: Source.Store)
    requires Rep(k, x, scopes, s.locals) && SameCalls(o, q) && st.Choose? && StmtNamed(k, x, st) && StmtSays(k, x, st)
    ensures var r := Run(o, fuel, st, State(scopes, s.w));
            Alike(k, x, r, Source.Exec(q, fuel, LexStmt(k, x, st), s)) && Level(r, |x.env|)
    decreases fuel, st, 0
  {
    hide Rep, SameCalls, Value, Source.EvalExp, LexExp, ExpNamed, Alike;
    ValueThen(o, q, k, x, scopes, st.cond, s);
    var g := Value(o, scopes, st.cond, s.w);
    if g.Got? {
      var s1 := s.(w := g.w);
      if g.v != 0 {
        StmtRuns(o, q, fuel, k, x, scopes, st.thn, s1);
      } else if st.els.Some? {
        var y := StmtLex(x, st.thn);
        StmtGrows(x, st.thn);
        RepMore(k, x, y, scopes, s1.locals);
        StmtRuns(o, q, fuel, k, y, scopes, st.els.value, s1);
        RepNumbered(k, x, scopes, s.locals);
        AlikeLess(k, x, y, Run(o, fuel, st.els.value, State(scopes, g.w)),
                  Source.Exec(q, fuel, LexStmt(k, y, st.els.value), s1));
      } else {
        EndsAlike(k, x, scopes, s1);
      }
    }
  }

  lemma {:induction false} LoopRuns(o: Source.Oracle, q: Source.Oracle, fuel: nat, k: Meanings, x: Lex, scopes: Scopes,
                                    st: Stmt, s: Source.Store)
    requires Rep(k, x, scopes, s.locals) && SameCalls(o, q) && st.Loop? && StmtNamed(k, x, st) && StmtSays(k, x, st)
    ensures var r := Run(o, fuel, st, State(scopes, s.w));
            Alike(k, x, r, Source.Exec(q, fuel, LexStmt(k, x, st), s)) && Level(r, |x.env|)
    decreases fuel, st, 0
  {
    if fuel > 0 {
      var loop := LexStmt(k, x, st);
      hide Rep, SameCalls, Value, Source.EvalExp, LexExp, ExpNamed, Alike;
      ValueThen(o, q, k, x, scopes, st.cond, s);
      var g := Value(o, scopes, st.cond, s.w);
      if g.Got? {
        var s1 := s.(w := g.w);
        EndsAlike(k, x, scopes, s1);
        if g.v != 0 {
          StmtRuns(o, q, fuel - 1, k, x, scopes, st.body, s1);
          var b := Run(o, fuel - 1, st.body, State(scopes, g.w));
          var c := Source.Exec(q, fuel - 1, LexStmt(k, x, st.body), s1);
          AlikeMeans(k, x, b, c);
          if b.Normal? || b.Continued? { StmtRuns(o, q, fuel - 1, k, x, b.s.scopes, st, c.s); }
          if b.Broke? { EndsAlike(k, x, b.s.scopes, c.s); }
          AroundAlike(o, q, fuel, k, x, st, b, c);
        }
      }
    }
  }

  /** Once the body has ended. */
  lemma AroundAlike(o: Source.Oracle, q: Source.Oracle, fuel: nat, k: Meanings, x: Lex, st: Stmt, b: Outcome,
                    c: Source.Outcome)
    requires fuel > 0 && st.Loop? && Alike(k, x, b, c) && Level(b, |x.env|)
    requires b.Normal? || b.Continued? ==>
               c.Normal? == b.Normal? && c.Continued? == b.Continued?
               && var r := Run(o, fuel - 1, st, b.s);
                  Alike(k, x, r, Source.Exec(q, fuel - 1, LexStmt(k, x, st), c.s)) && Level(r, |x.env|)
    requires b.Broke? ==> c.Broke? && Alike(k, x, Normal(b.s), Source.Normal(c.s))
    ensures var r := NamesMeaning.Again(o, fuel - 1, st, b);
            Alike(k, x, r, Source.Around(q, fuel - 1, LexStmt(k, x, st), c)) && Level(r, |x.env|)
  {
    hide Run, Source.Exec, AlikeState, LexStmt;
  }

  // ----- items -----

  lemma {:induction false} ItemsRun(o: Source.Oracle, q: Source.Oracle, fuel: nat, k: Meanings, x: Lex, scopes: Scopes,
                                    items: Items, s: Source.Store)
    requires Rep(k, x, scopes, s.locals) && SameCalls(o, q) && ItemsNamed(k, x, items) && ItemsSay(k, x, items)
    ensures Alike(k, x, RunItems(o, fuel, items, State(scopes, s.w)),
                  Source.ExecItems(q, fuel, LexItems(k, x, items), s))
    decreases fuel, items, 1
  {
    EndsAlike(k, x, scopes, s);
    if items.Items? {
      RepNumbered(k, x, scopes, s.locals);
      var i, rest := items.head, items.tail;
      var y := ItemLex(x, i);
      ItemGrows(x, i);
      hide Rep, SameCalls, Alike, RunItem, Source.ExecItem;
      ItemRuns(o, q, fuel, k, x, scopes, items, s);
      var r, j := RunItem(o, fuel, i, State(scopes, s.w)), LexItems(k, x, items).head;
      var t := Source.ExecItem(q, fuel, j, s);
      if r.Normal? {
        AlikeMeans(k, y, r, t);
        ItemsRun(o, q, fuel, k, y, r.s.scopes, rest, t.s);
        AlikeLess(k, x, y, RunItems(o, fuel, rest, r.s), Source.ExecItems(q, fuel, LexItems(k, y, rest), t.s));
      } else {
        NotNormal(k, y, r, t);
        AlikeLess(k, x, y, r, t);
      }
    }
  }

  lemma NotNormal(k: Meanings, y: Lex, r: Outcome, t: Source.Outcome)
    requires Alike(k, y, r, t) && !r.Normal?
    ensures !t.Normal?
  {
  }

  /** The environment after an item. */
  function ItemLex(x: Lex, i: Item): Lex
  {
    match i
    case Constants(defs) => LexDefs(x, DefsOf(defs))
    case Variables(defs) => LexDefs(x, DefsOf(defs))
    case Statement(st) => StmtLex(x, st)
  }

  lemma ItemGrows(x: Lex, i: Item)
    ensures var y := ItemLex(x, i); x.names <= y.names && x.env <= y.env
  {
    match i
    case Constants(defs) => DefsGrow(x, DefsOf(defs));
    case Variables(defs) => DefsGrow(x, DefsOf(defs));
    case Statement(st) => StmtGrows(x, st);
  }

  lemma {:induction false} ItemRuns(o: Source.Oracle, q: Source.Oracle, fuel: nat, k: Meanings, x: Lex, scopes: Scopes,
                                    items: Items, s: Source.Store)
    requires Rep(k, x, scopes, s.locals) && SameCalls(o, q) && ItemsNamed(k, x, items) && ItemsSay(k, x, items)
    requires items.Items?
    ensures var y, r := ItemLex(x, items.head), RunItem(o, fuel, items.head, State(scopes, s.w));
            && Alike(k, y, r, Source.ExecItem(q, fuel, LexItems(k, x, items).head, s)) && Level(r, |y.env|)
            && (items.head.Statement? && items.head.s.Give? ==> !r.Normal?)
    decreases fuel, items, 0
  {
    hide Rep, SameCalls, Alike;
    match items.head
    case Constants(defs) =>
      ConstsRun(k, x, scopes, s.locals, defs);
      EndsAlike(k, LexDefs(x, DefsOf(defs)), Bind(scopes, defs).value, s);
    case Variables(defs) => VarsRun(o, q, k, x, LexDefs(x, DefsOf(defs)), scopes, defs, s);
    case Statement(st) =>
      StmtRuns(o, q, fuel, k, x, scopes, st, s);
      StmtGrows(x, st);
      AlikeMore(k, x, StmtLex(x, st), Run(o, fuel, st, State(scopes, s.w)),
                Source.Exec(q, fuel, LexStmt(k, x, st), s));
  }
}
