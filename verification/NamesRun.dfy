/**
 * Putting declarations in the place of names keeps the meaning: a program resolved by lexical scoping does what the
 * program with names does.
 */
module NamesRun {
  import opened Words
  import opened Names
  import opened NamesMeaning
  import opened SymbolsBuild
  import Folding
  import Source
  import Symbols

  // ----- names and numbers -----

  /** What a binding is, seen from the declaration it comes from. */
  predicate Suits(k: Meanings, d: nat, what: Thing, locals: map<nat, Word>)
  {
    match what
    case Constant(v) => k(d) == Fixed(v)
    case Cell(held) => k(d) == LocalVar && held == if d in locals then Some(locals[d]) else None
    case Shared(g) => k(d) == GlobalVar && g == d
    case Routine(f, isVoid) => k(d) == Subroutine(isVoid) && f == d
  }

  predicate SuitsAt(k: Meanings, x: Lex, scopes: Scopes, locals: map<nat, Word>, i: nat)
    requires i < |scopes| == |x.env|
  {
    x.env[i] < |x.names| && scopes[i].name == x.names[x.env[i]] && Suits(k, x.env[i], scopes[i].what, locals)
  }

  /** A stack of bindings, and the same by numbers. */
  predicate Rep(k: Meanings, x: Lex, scopes: Scopes, locals: map<nat, Word>)
  {
    |scopes| == |x.env| && Ascending(x.env) && forall i: nat :: i < |scopes| ==> SuitsAt(k, x, scopes, locals, i)
  }

  predicate SameNames(x: Lex, scopes: Scopes)
  {
    |scopes| == |x.env| && forall i: nat :: i < |scopes| ==>
      x.env[i] < |x.names| && scopes[i].name == x.names[x.env[i]]
  }

  lemma {:induction false} FoundAt(x: Lex, scopes: Scopes, n: string)
    requires SameNames(x, scopes)
    ensures match Place(scopes, n)
            case None => Lookup(x, n) == None
            case Some(p) => p < |scopes| && scopes[p].name == n && Lookup(x, n) == Some(x.env[p])
    decreases |scopes|
  {
    if scopes != [] {
      var m := |scopes| - 1;
      FoundAt(x.(env := x.env[..m]), scopes[..m], n);
    }
  }

  lemma Found(k: Meanings, x: Lex, scopes: Scopes, locals: map<nat, Word>, n: string)
    requires Rep(k, x, scopes, locals)
    ensures match Place(scopes, n)
            case None => Lookup(x, n) == None
            case Some(p) => p < |scopes| && scopes[p].name == n && Lookup(x, n) == Some(x.env[p])
                            && Suits(k, x.env[p], scopes[p].what, locals)
  {
    forall i: nat | i < |scopes| ensures x.env[i] < |x.names| && scopes[i].name == x.names[x.env[i]] {
      assert SuitsAt(k, x, scopes, locals, i);
    }
    FoundAt(x, scopes, n);
    if Place(scopes, n).Some? { assert SuitsAt(k, x, scopes, locals, Place(scopes, n).value); }
  }

  /** More numbers do not matter. */
  lemma RepMore(k: Meanings, x: Lex, y: Lex, scopes: Scopes, locals: map<nat, Word>)
    requires Rep(k, x, scopes, locals) && x.names <= y.names && y.env == x.env
    ensures Rep(k, y, scopes, locals)
  {
    forall i: nat | i < |scopes| ensures SuitsAt(k, y, scopes, locals, i) {
      assert SuitsAt(k, x, scopes, locals, i);
    }
  }

  /** Leaving bindings. */
  lemma RepLess(k: Meanings, x: Lex, y: Lex, scopes: Scopes, locals: map<nat, Word>)
    requires Rep(k, y, scopes, locals) && x.names <= y.names && x.env <= y.env
    requires forall i :: 0 <= i < |x.env| ==> x.env[i] < |x.names|
    ensures Rep(k, x, scopes[..|x.env|], locals)
  {
    var less := scopes[..|x.env|];
    forall i, j | 0 <= i < j < |x.env| ensures x.env[i] < x.env[j] { assert y.env[i] < y.env[j]; }
    forall i: nat | i < |less| ensures SuitsAt(k, x, less, locals, i) {
      assert SuitsAt(k, y, scopes, locals, i);
    }
  }

  /** A new binding. */
  lemma RepBind(k: Meanings, x: Lex, scopes: Scopes, locals: map<nat, Word>, n: string, what: Thing,
                locals1: map<nat, Word>)
    requires Rep(k, x, scopes, locals) && Suits(k, |x.names|, what, locals1)
    requires forall d :: d != |x.names| ==> (d in locals1 <==> d in locals) && (d in locals ==> locals1[d] == locals[d])
    ensures Rep(k, Declare(x, n), scopes + [Binding(n, what)], locals1)
  {
    var y, more := Declare(x, n), scopes + [Binding(n, what)];
    forall i: nat | i < |more| ensures SuitsAt(k, y, more, locals1, i) {
      if i < |scopes| { assert SuitsAt(k, x, scopes, locals, i); }
    }
    forall i, j | 0 <= i < j < |y.env| ensures y.env[i] < y.env[j] {
      assert SuitsAt(k, x, scopes, locals, i);
    }
  }

  // ----- what the two passes ask of names -----

  predicate ExpNamed(k: Meanings, x: Lex, e: Exp)
  {
    match e
    case Number(_) => true
    case Name(n) => Lookup(x, n).Some? && !k(Lookup(x, n).value).Subroutine?
    case Apply(f, args) => Lookup(x, f).Some? && k(Lookup(x, f).value).Subroutine? && ArgsNamed(k, x, args)
    case Same(e0) => ExpNamed(k, x, e0)
    case Minus(e0) => ExpNamed(k, x, e0)
    case Opposite(e0) => ExpNamed(k, x, e0)
    case Arith(_, l, r) => ExpNamed(k, x, l) && ExpNamed(k, x, r)
    case Logical(_, l, r) => ExpNamed(k, x, l) && ExpNamed(k, x, r)
  }

  predicate ArgsNamed(k: Meanings, x: Lex, es: Exps)
  {
    es.Exps? ==> ExpNamed(k, x, es.head) && ArgsNamed(k, x, es.tail)
  }

  predicate InitNamed(k: Meanings, x: Lex, init: Option<Exp>) { init.Some? ==> ExpNamed(k, x, init.value) }

  predicate StmtNamed(k: Meanings, x: Lex, st: Stmt)
    decreases st
  {
    match st
    case Set(n, e) =>
      && ExpNamed(k, x, e) && Lookup(x, n).Some?
      && (k(Lookup(x, n).value).LocalVar? || k(Lookup(x, n).value).GlobalVar?)
    case Do(e) => ExpNamed(k, x, e)
    case Compound(items) => ItemsNamed(k, x, items)
    case Give(ret) => InitNamed(k, x, ret)
    case Choose(c, t, f) =>
      ExpNamed(k, x, c) && StmtNamed(k, x, t) && (f.Some? ==> StmtNamed(k, StmtLex(x, t), f.value))
    case Loop(c, body) => ExpNamed(k, x, c) && StmtNamed(k, x, body)
    case _ => true
  }

  predicate ItemsNamed(k: Meanings, x: Lex, items: Items)
    decreases items
  {
    match items
    case NoItems => true
    case Items(Constants(defs), rest) => ConstsNamed(k, x, defs) && ItemsNamed(k, LexDefs(x, DefsOf(defs)), rest)
    case Items(Variables(defs), rest) => VarsNamed(k, x, defs) && ItemsNamed(k, LexDefs(x, DefsOf(defs)), rest)
    case Items(Statement(st), rest) => StmtNamed(k, x, st) && (st.Give? || ItemsNamed(k, StmtLex(x, st), rest))
  }

  /** Constants are constant, and such as fold right. */
  predicate ConstsNamed(k: Meanings, x: Lex, defs: NamedDefs)
    decreases defs
  {
    && defs.def.init.Some? && ExpNamed(k, x, defs.def.init.value)
    && Folding.ConstantExp(LexExp(k, x, defs.def.init.value))
    && Folding.OperandsAgree(LexExp(k, x, defs.def.init.value))
    && (defs.Many? ==> ConstsNamed(k, Declare(x, defs.def.name), defs.rest))
  }

  function DefinedNames(defs: NamedDefs): seq<string>
    decreases defs
  {
    [defs.def.name] + if defs.One? then [] else DefinedNames(defs.rest)
  }

  /** No name is declared twice, and no initialiser names what its list declares later: that would not have a place
      yet. */
  predicate VarsNamed(k: Meanings, x: Lex, defs: NamedDefs)
    decreases defs
  {
    var y := Declare(x, defs.def.name);
    && InitNamed(k, y, defs.def.init)
    && (defs.Many? ==>
          && defs.def.name !in DefinedNames(defs.rest)
          && (forall n :: n in InitUses(defs.def.init) ==> n !in DefinedNames(defs.rest))
          && VarsNamed(k, y, defs.rest))
  }

  // ----- what the first pass says of them -----

  /** The value a constant is given. */
  function FoldedTo(k: Meanings, x: Lex, init: Option<Exp>): Word
  {
    if init.None? then 0 else
    match Folding.Fold(LexExp(k, x, init.value))
    case Known(v) => v
    case _ => 0
  }

  predicate ConstsSay(k: Meanings, x: Lex, defs: NamedDefs)
    decreases defs
  {
    && k(|x.names|) == Fixed(FoldedTo(k, x, defs.def.init))
    && (defs.Many? ==> ConstsSay(k, Declare(x, defs.def.name), defs.rest))
  }

  predicate VarsSay(k: Meanings, d: nat, m: Meaning, defs: NamedDefs)
    decreases defs
  {
    k(d) == m && (defs.Many? ==> VarsSay(k, d + 1, m, defs.rest))
  }

  predicate StmtSays(k: Meanings, x: Lex, st: Stmt)
    decreases st
  {
    match st
    case Compound(items) => ItemsSay(k, x, items)
    case Choose(_, t, f) => StmtSays(k, x, t) && (f.Some? ==> StmtSays(k, StmtLex(x, t), f.value))
    case Loop(_, body) => StmtSays(k, x, body)
    case _ => true
  }

  predicate ItemsSay(k: Meanings, x: Lex, items: Items)
    decreases items
  {
    match items
    case NoItems => true
    case Items(Constants(defs), rest) => ConstsSay(k, x, defs) && ItemsSay(k, LexDefs(x, DefsOf(defs)), rest)
    case Items(Variables(defs), rest) =>
      VarsSay(k, |x.names|, LocalVar, defs) && ItemsSay(k, LexDefs(x, DefsOf(defs)), rest)
    case Items(Statement(st), rest) => StmtSays(k, x, st) && ItemsSay(k, StmtLex(x, st), rest)
  }

  // ----- environments grow -----

  lemma {:induction false} DefsGrow(x: Lex, defs: Symbols.Defs)
    ensures var y := LexDefs(x, defs); x.names <= y.names && x.env <= y.env
    decreases defs
  {
    if defs.More? { DefsGrow(Declare(x, defs.def.name), defs.rest); }
  }

  lemma {:induction false} PartGrows(x: Lex, p: Symbols.Part)
    ensures x.names <= LexPart(x, p).names
    decreases p
  {
    match p
    case Const(defs) => DefsGrow(x, defs);
    case Var(defs) => DefsGrow(x, defs);
    case Block(parts) => PartsGrow(x, parts);
    case _ =>
  }

  lemma {:induction false} PartsGrow(x: Lex, ps: Symbols.Parts)
    ensures x.names <= LexParts(x, ps).names
    decreases ps
  {
    if ps.Parts? {
      PartGrows(x, ps.head);
      PartsGrow(LexPart(x, ps.head), ps.tail);
    }
  }

  lemma {:induction false} StmtGrows(x: Lex, st: Stmt)
    ensures var y := StmtLex(x, st); x.names <= y.names && y.env == x.env
    decreases st
  {
    match st
    case Compound(items) => PartGrows(x, Symbols.Part.Block(ItemsParts(items)));
    case Choose(_, t, f) =>
      StmtGrows(x, t);
      if f.Some? { StmtGrows(StmtLex(x, t), f.value); }
    case Loop(_, body) => StmtGrows(x, body);
    case _ =>
  }

  // ----- expressions -----

  ghost predicate SameCalls(o: Source.Oracle, q: Source.Oracle)
  {
    forall w, f, vs :: o(w, f, vs) == q(w, f, vs)
  }

  predicate AlikeValue(s: Source.Store, g: Got, r: Source.EvalResult)
  {
    match g
    case Got(v, w) => r == Source.Value(v, s.(w := w))
    case Bad => r == Source.EvalWrong
    case Hung => r == Source.EvalHung
  }

  predicate AlikeValues(s: Source.Store, g: GotAll, r: Source.ArgsResult)
  {
    match g
    case GotAll(vs, w) => r == Source.Values(vs, s.(w := w))
    case AllBad => r == Source.ArgsWrong
    case AllHung => r == Source.ArgsHung
  }

  lemma FetchRuns(q: Source.Oracle, k: Meanings, x: Lex, scopes: Scopes, n: string, s: Source.Store)
    requires Rep(k, x, scopes, s.locals) && ExpNamed(k, x, Name(n))
    ensures AlikeValue(s, Fetch(scopes, n, s.w), Source.EvalExp(q, LexExp(k, x, Name(n)), s))
  {
    hide Rep;
    Found(k, x, scopes, s.locals, n);
  }

  lemma InvokeRuns(o: Source.Oracle, q: Source.Oracle, k: Meanings, x: Lex, scopes: Scopes, f: string, vs: seq<Word>,
                   args: Source.Exps, s: Source.Store, s1: Source.Store)
    requires Rep(k, x, scopes, s.locals) && Lookup(x, f).Some? && k(Lookup(x, f).value).Subroutine? && SameCalls(o, q)
    requires Source.EvalArgs(q, args, s) == Source.Values(vs, s1)
    ensures AlikeValue(s1, Invoke(o, scopes, f, vs, s1.w),
                       Source.EvalExp(q, Source.Call(CalleeOf(k, Lookup(x, f)), args), s))
  {
    hide Rep;
    Found(k, x, scopes, s.locals, f);
  }

  lemma {:induction false} ValueRuns(o: Source.Oracle, q: Source.Oracle, k: Meanings, x: Lex, scopes: Scopes, e: Exp,
                                     s: Source.Store)
    requires Rep(k, x, scopes, s.locals) && ExpNamed(k, x, e) && SameCalls(o, q)
    ensures AlikeValue(s, Value(o, scopes, e, s.w), Source.EvalExp(q, LexExp(k, x, e), s))
    decreases e
  {
    hide Rep, SameCalls, Source.Apply, Lookup, SymbolOf, CalleeOf, Fetch, Invoke;
    match e
    case Number(_) =>
    case Name(n) => FetchRuns(q, k, x, scopes, n, s);
    case Apply(f, args) =>
      ValuesRun(o, q, k, x, scopes, args, s);
      var r := Values(o, scopes, args, s.w);
      if r.GotAll? { InvokeRuns(o, q, k, x, scopes, f, r.vs, LexArgs(k, x, args), s, s.(w := r.w)); }
    case Same(e0) => ValueRuns(o, q, k, x, scopes, e0, s);
    case Minus(e0) =>
      ValueRuns(o, q, k, x, scopes, e0, s);
      NegIsSub();
    case Opposite(e0) => ValueRuns(o, q, k, x, scopes, e0, s);
    case Arith(_, l, r) =>
      ValueRuns(o, q, k, x, scopes, l, s);
      var a := Value(o, scopes, l, s.w);
      if a.Got? { ValueRuns(o, q, k, x, scopes, r, s.(w := a.w)); }
    case Logical(_, l, r) =>
      ValueRuns(o, q, k, x, scopes, l, s);
      var a := Value(o, scopes, l, s.w);
      if a.Got? { ValueRuns(o, q, k, x, scopes, r, s.(w := a.w)); }
  }

  lemma NegIsSub()
    ensures forall v: Word :: Source.Apply(Source.Sub, 0, v) == Wrap(0 - v)
  {
  }

  lemma {:induction false} ValuesRun(o: Source.Oracle, q: Source.Oracle, k: Meanings, x: Lex, scopes: Scopes, es: Exps,
                                     s: Source.Store)
    requires Rep(k, x, scopes, s.locals) && ArgsNamed(k, x, es) && SameCalls(o, q)
    ensures AlikeValues(s, Values(o, scopes, es, s.w), Source.EvalArgs(q, LexArgs(k, x, es), s))
    decreases es
  {
    hide Rep, SameCalls, Value, Source.EvalExp, LexExp;
    if es.Exps? {
      ValueRuns(o, q, k, x, scopes, es.head, s);
      var a := Value(o, scopes, es.head, s.w);
      if a.Got? { ValuesRun(o, q, k, x, scopes, es.tail, s.(w := a.w)); }
    }
  }
}
