/**
 * One program all the way: `const int n = 10 / 2; int g; int main() { int x = n; g = x + 7; return g; }`. What its
 * names are, what it is resolved to, lowered to and printed as, and what it returns.
 */
module Sample {
  import opened Words
  import opened Names
  import opened NamesAgree
  import opened NamesKinds
  import opened NamesMeaning
  import opened NamesPrograms
  import opened NamesRun
  import opened Symbols
  import opened SymbolsAccept
  import opened SymbolsBuild
  import opened SymbolsReplay
  import CodegenEntry
  import Codegen
  import EndToEnd
  import Folding
  import Koopa
  import Lowering
  import LoweringLocal
  import Programs
  import Riscv
  import Source
  import UnsafePrograms

  const NONE: Prelude := Prelude([], [])

  const TEN_HALVED: Names.Exp := Arith(Source.Div, Number(10), Number(2))

  const CONSTANT: Declaration := GlobalConstants(One(NamedDef("n", Some(TEN_HALVED))))

  const GLOBAL: Declaration := GlobalVariables(One(NamedDef("g", None)))

  const DECLARE_X: Names.Item := Variables(One(NamedDef("x", Some(Name("n")))))

  const SET_G: Names.Item := Statement(Set("g", Arith(Source.Add, Name("x"), Number(7))))

  const GIVE_G: Names.Item := Statement(Give(Some(Name("g"))))

  const BODY: Names.Items :=
    Names.Items.Items(DECLARE_X, Names.Items.Items(SET_G, Names.Items.Items(GIVE_G, Names.NoItems)))

  const MAIN: Declaration := Function(false, "main", [], BODY)

  const PROGRAM: seq<Declaration> := [CONSTANT, GLOBAL, MAIN]

  // ----- names -----

  const SKELETON: Parts :=
    Parts(Part.Var(Last(Def("x", ["n"]))),
          Parts(Use("x"), Parts(Use("g"), Parts(Use("g"), Parts(Symbols.Return, NoParts)))))

  lemma SkeletonOfBody()
    ensures ItemsParts(BODY) == SKELETON
  {
    var rest := Parts(Use("g"), Parts(Symbols.Return, NoParts));
    assert UsesThen(["g"], Parts(Symbols.Return, NoParts)) == rest by { assert ["g"][1..] == []; }
    assert Uses(Arith(Source.Add, Name("x"), Number(7))) + ["g"] == ["x", "g"];
    assert UsesThen(["x", "g"], rest) == Parts(Use("x"), Parts(Use("g"), rest)) by {
      assert ["x", "g"][1..] == ["g"] && ["g"][1..] == [];
    }
  }

  lemma SkeletonIs()
    ensures Skeletons(PROGRAM) ==
            [GlobalConst(Last(Def("n", []))), Global.GlobalVar(Last(Def("g", []))), Func("main", [], SKELETON)]
  {
    SkeletonOfBody();
    assert Uses(TEN_HALVED) == [];
    assert Skeleton(CONSTANT) == DECLARE_N && Skeleton(GLOBAL) == DECLARE_G && Skeleton(MAIN) == DEFINE_MAIN;
    hide Skeleton, ItemsParts;
    assert PROGRAM[1..] == [GLOBAL, MAIN] && [GLOBAL, MAIN][1..] == [MAIN] && [MAIN][1..] == [];
    assert Skeletons([]) == [] && Skeletons([MAIN]) == [Skeleton(MAIN)];
    assert Skeletons([GLOBAL, MAIN]) == [Skeleton(GLOBAL), Skeleton(MAIN)];
    assert Skeletons(PROGRAM) == [Skeleton(CONSTANT), Skeleton(GLOBAL), Skeleton(MAIN)];
  }

  const DECLARE_N: Global := GlobalConst(Last(Def("n", [])))

  const DECLARE_G: Global := Global.GlobalVar(Last(Def("g", [])))

  const DEFINE_MAIN: Global := Func("main", [], SKELETON)

  lemma Following()
    ensures var gs := [DECLARE_N, DECLARE_G, DEFINE_MAIN];
            && gs[1..] == [DECLARE_G, DEFINE_MAIN] && [DECLARE_G, DEFINE_MAIN][1..] == [DEFINE_MAIN]
            && [DEFINE_MAIN][1..] == []
    ensures GlobalNames(DECLARE_N) == ["n"] && GlobalNames(DECLARE_G) == ["g"] && GlobalNames(DEFINE_MAIN) == ["main"]
  {
  }

  lemma NamesFollowRule()
    ensures Accepted([], [DECLARE_N, DECLARE_G, DEFINE_MAIN])
  {
    hide SymbolsAccept.Distinct;
    Following();
    MainScoped();
    var gs := [DECLARE_N, DECLARE_G, DEFINE_MAIN];
    assert AllGlobalNames([DEFINE_MAIN]) == ["main"] by { assert ["main"] + [] == ["main"]; }
    assert AllGlobalNames([DECLARE_G, DEFINE_MAIN]) == ["g", "main"];
    assert AllGlobalNames(gs) == ["n", "g", "main"];
    assert NameSet(["n"]) == {"n"} && NameSet(["g"]) == {"g"} && NameSet([]) == {} && NameSet(["main"]) == {"main"};
    assert {} + {"n"} == {"n"} && {"n"} + {"g"} == {"n", "g"};
    assert GlobalsScoped({"n", "g"} + {"main"}, []);
    assert GlobalsScoped({"n", "g"}, [DEFINE_MAIN]);
    assert GlobalsScoped({"n"}, [DECLARE_G, DEFINE_MAIN]);
    assert GlobalsScoped({}, gs);
    Different();
  }

  lemma Different()
    ensures SymbolsAccept.Distinct(["n", "g", "main"])
  {
  }

  /** The first pass accepts it, the second finds every scope, and no later global hides a name. */
  lemma Accepts(h: Hash) returns (f: Table)
    ensures BuildGlobals(h, Initially(h, []), Skeletons(PROGRAM)) == Some(f)
    ensures FaithfulGlobals(Skeletons(PROGRAM)) && Quiet(Skeletons(PROGRAM))
  {
    hide BuildGlobals, Initially, Accepted;
    SkeletonIs();
    NamesFollowRule();
    Following();
    AcceptsExactly(h, [], Skeletons(PROGRAM));
    f := BuildGlobals(h, Initially(h, []), Skeletons(PROGRAM)).value;
    assert AllFaithful(SKELETON);
    assert GlobalUses(DECLARE_N) == [] && GlobalUses(DECLARE_G) == [];
    assert FaithfulGlobals([DEFINE_MAIN]) && FaithfulGlobals([DECLARE_G, DEFINE_MAIN]);
    assert Quiet([DEFINE_MAIN]) && Quiet([DECLARE_G, DEFINE_MAIN]);
  }

  lemma MainScoped()
    ensures GlobalScoped({"n", "g"}, Func("main", [], SKELETON))
  {
    var decl := SKELETON.head;
    assert DefNames(decl.defs) == ["x"] && NameSet(["x"]) == {"x"} && NameSet([]) == {};
    var vis := {"n", "g"} + {"main"} + {};
    assert AllScoped(vis + {"x"}, SKELETON.tail) by {
      var v := vis + {"x"};
      assert v + {} == v;
      assert AllScoped(v, SKELETON.tail.tail.tail.tail);
      assert AllScoped(v, SKELETON.tail.tail.tail);
      assert AllScoped(v, SKELETON.tail.tail);
    }
    assert Scoped(vis, decl);
    assert AllScoped(vis, SKELETON);
  }

  // ----- declarations in place -----

  const KINDS: seq<Meaning> := [Fixed(5), Meaning.GlobalVar, Subroutine(false), LocalVar]

  const AFTER_N: Lex := Lex(["n"], [0])

  const AFTER_G: Lex := Lex(["n", "g"], [0, 1])

  const IN_MAIN: Lex := Lex(["n", "g", "main"], [0, 1, 2])

  const AFTER_X: Lex := Lex(["n", "g", "main", "x"], [0, 1, 2, 3])

  const RESOLVED: Source.FuncDef :=
    Source.FuncDef(false, [],
                   Source.Items(Source.VarDecl(Source.Defs(Source.VarDef(3, Some(Source.LVal(Source.Constant(5)))),
                                                           Source.NoDefs)),
                   Source.Items(Source.Stm(Source.Assign(Source.Global(1), SUM)),
                   Source.Items(Source.Stm(Source.Stmt.Return(Some(Source.LVal(Source.Variable(Source.Global(1)))))),
                                Source.NoItems))))

  const SUM: Source.Exp :=
    Source.Exp.Binary(Source.Add, Source.LVal(Source.Variable(Source.Local(3))), Source.Num(7))

  /** 10 / 2 is 5, folded or run. */
  lemma Halved(k: Meanings, x: Lex)
    ensures var e := LexExp(k, x, TEN_HALVED);
            Folding.Fold(e) == Folding.Known(5) && Folding.ConstantExp(e) && Folding.OperandsAgree(e)
    ensures ExpNamed(k, x, TEN_HALVED) && FoldedTo(k, x, Some(TEN_HALVED)) == 5
  {
    var e := Source.Exp.Binary(Source.Div, Source.Num(10), Source.Num(2));
    assert LexExp(k, x, TEN_HALVED) == e;
    assert Folding.Fold(Source.Num(10)) == Folding.Known(10) && Folding.Fold(Source.Num(2)) == Folding.Known(2);
    assert Folding.OpAgrees(Source.Div, 10, 2);
  }

  lemma Environments()
    ensures NONE.Env() == Lex([], []) && Declare(NONE.Env(), "n") == AFTER_N && Declare(AFTER_N, "g") == AFTER_G
    ensures Declare(AFTER_G, "main") == IN_MAIN && Declare(IN_MAIN, "x") == AFTER_X
    ensures LexGlobal(NONE.Env(), Skeleton(CONSTANT)) == AFTER_N && LexGlobal(AFTER_N, Skeleton(GLOBAL)) == AFTER_G
  {
    assert [] + ["n"] == ["n"] && [] + [0] == [0] && ["n"] + ["g"] == ["n", "g"] && [0] + [1] == [0, 1];
    assert ["n", "g"] + ["main"] == ["n", "g", "main"] && [0, 1] + [2] == [0, 1, 2];
    assert ["n", "g", "main"] + ["x"] == ["n", "g", "main", "x"] && [0, 1, 2] + [3] == [0, 1, 2, 3];
    assert NONE.Env() == Lex([], []);
    assert Declare(NONE.Env(), "n") == AFTER_N;
  }

  lemma Lookups()
    ensures Lookup(AFTER_X, "n") == Some(0) && Lookup(AFTER_X, "g") == Some(1) && Lookup(AFTER_X, "x") == Some(3)
    ensures Lookup(IN_MAIN, "main") == Some(2)
  {
    var three, two, one := Lex(AFTER_X.names, [0, 1, 2]), Lex(AFTER_X.names, [0, 1]), Lex(AFTER_X.names, [0]);
    assert AFTER_X.(env := AFTER_X.env[..3]) == three && three.(env := three.env[..2]) == two;
    assert two.(env := two.env[..1]) == one;
    assert Lookup(one, "n") == Some(0) && Lookup(two, "n") == Some(0) && Lookup(three, "n") == Some(0);
    assert Lookup(two, "g") == Some(1) && Lookup(three, "g") == Some(1);
  }

  lemma MainKinds()
    ensures GlobalKinds([Fixed(5), Meaning.GlobalVar], AFTER_G, MAIN) == KINDS
  {
    Environments();
    var before := [Fixed(5), Meaning.GlobalVar, Subroutine(false)];
    assert [Fixed(5), Meaning.GlobalVar] + [Subroutine(false)] + ParamKinds([]) == before;
    assert LexParams(IN_MAIN, []) == IN_MAIN && LexDefs(IN_MAIN, DefsOf(DECLARE_X.defs)) == AFTER_X;
    assert VarKinds(before, LocalVar, DECLARE_X.defs) == KINDS;
    hide LexDefs, VarKinds;
    assert ItemKinds(KINDS, AFTER_X, BODY.tail.tail.tail) == KINDS;
    assert ItemKinds(KINDS, AFTER_X, BODY.tail.tail) == KINDS && ItemKinds(KINDS, AFTER_X, BODY.tail) == KINDS;
    assert ItemKinds(before, IN_MAIN, BODY) == KINDS;
  }

  lemma KindsAre()
    ensures ProgramKinds([], NONE.Env(), PROGRAM) == KINDS && NONE.Kinds() == []
  {
    Environments();
    Halved(KindAt([]), NONE.Env());
    MainKinds();
    assert PROGRAM[1..] == [GLOBAL, MAIN] && [GLOBAL, MAIN][1..] == [MAIN] && [MAIN][1..] == [];
    assert GlobalKinds([], NONE.Env(), CONSTANT) == [Fixed(5)];
    assert GlobalKinds([Fixed(5)], AFTER_N, GLOBAL) == [Fixed(5), Meaning.GlobalVar];
    hide GlobalKinds, LexGlobal;
    assert ProgramKinds(KINDS, LexGlobal(AFTER_G, Skeleton(MAIN)), []) == KINDS;
    assert ProgramKinds([Fixed(5), Meaning.GlobalVar], AFTER_G, [MAIN]) == KINDS;
    assert ProgramKinds([Fixed(5)], AFTER_N, [GLOBAL, MAIN]) == KINDS;
  }

  lemma MainResolved()
    ensures LexFunction(KindAt(KINDS), AFTER_G, MAIN) == (2, RESOLVED) && GlobalNamed(KindAt(KINDS), AFTER_G, MAIN)
  {
    Environments();
    Lookups();
    BodyResolved();
    assert LexParams(IN_MAIN, []) == IN_MAIN && Ids(LookupAll(IN_MAIN, [])) == [];
  }

  lemma ResolvedIs()
    ensures LexProgram(KindAt(KINDS), NONE.Env(), PROGRAM) == [(2, RESOLVED)]
    ensures ProgramNamed(KindAt(KINDS), NONE.Env(), PROGRAM)
  {
    var k := KindAt(KINDS);
    Environments();
    Halved(k, NONE.Env());
    MainResolved();
    assert PROGRAM[1..] == [GLOBAL, MAIN] && [GLOBAL, MAIN][1..] == [MAIN] && [MAIN][1..] == [];
    assert GlobalNamed(k, NONE.Env(), CONSTANT) && GlobalNamed(k, AFTER_N, GLOBAL);
    hide LexFunction, GlobalNamed, LexGlobal, RESOLVED;
    assert [(2, RESOLVED)] + LexProgram(k, LexGlobal(AFTER_G, Skeleton(MAIN)), []) == [(2, RESOLVED)];
    assert LexProgram(k, AFTER_G, [MAIN]) == [(2, RESOLVED)];
    assert LexProgram(k, AFTER_N, [GLOBAL, MAIN]) == [(2, RESOLVED)];
    assert ProgramNamed(k, AFTER_G, [MAIN]) && ProgramNamed(k, AFTER_N, [GLOBAL, MAIN]);
  }

  lemma BodyResolved()
    ensures LexItems(KindAt(KINDS), IN_MAIN, BODY) == RESOLVED.body && ItemsNamed(KindAt(KINDS), IN_MAIN, BODY)
  {
    var k := KindAt(KINDS);
    Environments();
    Lookups();
    assert LexDefs(IN_MAIN, DefsOf(DECLARE_X.defs)) == AFTER_X;
    assert k(0) == Fixed(5) && k(1) == Meaning.GlobalVar && k(3) == LocalVar;
    assert LexExp(k, AFTER_X, Arith(Source.Add, Name("x"), Number(7))) == SUM;
    assert LexItems(k, AFTER_X, BODY.tail.tail) == RESOLVED.body.tail.tail;
    assert LexItems(k, AFTER_X, BODY.tail) == RESOLVED.body.tail;
    assert ItemsNamed(k, AFTER_X, BODY.tail.tail) && ItemsNamed(k, AFTER_X, BODY.tail);
  }

  // ----- lowering -----

  const X: Koopa.Slot := Koopa.Of(Source.Local(3))

  const G: Koopa.Slot := Koopa.Of(Source.Global(1))

  const INSTS: seq<Koopa.Inst> :=
    [Koopa.Alloc(X), Koopa.Inst.Store(Koopa.Imm(5), X), Koopa.Load(0, X),
     Koopa.Inst.Binary(1, Source.Add, Koopa.Res(0), Koopa.Imm(7)), Koopa.Inst.Store(Koopa.Res(1), G),
     Koopa.Load(2, G), Koopa.Inst.Return(Some(Koopa.Res(2)))]

  const FUNC: Koopa.Func := Koopa.Func(false, 0, [0], [INSTS])

  /** One open block with the first n instructions, of which ids are values. */
  function Built(n: nat, ids: nat): Lowering.State
    requires n <= 7
  {
    Lowering.State(ids, [INSTS[..n]], [0], 0, 0, 0, false)
  }

  lemma Builds(n: nat, ids: nat)
    requires n < 7
    ensures Lowering.Append(Built(n, ids), INSTS[n]) == Built(n + 1, ids)
    ensures Lowering.Emit(Built(n, ids), INSTS[n]) == Built(n + 1, ids + 1)
  {
    assert INSTS[..n] + [INSTS[n]] == INSTS[..n + 1];
    assert n > 0 ==> INSTS[..n][n - 1] == INSTS[n - 1] && !INSTS[n - 1].Return?;
  }

  lemma DeclarationLowered()
    ensures Lowering.LowerItem(RESOLVED.body.head, Built(0, 0)) == Built(2, 0)
  {
    Builds(0, 0);
    Builds(1, 0);
    hide Built;
    assert Lowering.LowerExp(Source.LVal(Source.Constant(5)), Built(1, 0)) == (Built(1, 0), Koopa.Imm(5));
  }

  lemma AssignmentLowered()
    ensures Lowering.LowerItem(RESOLVED.body.tail.head, Built(2, 0)) == Built(5, 2)
  {
    Builds(2, 0);
    Builds(3, 1);
    Builds(4, 2);
    assert Built(2, 0).next == 0 && Built(3, 1).next == 1;
    hide Built;
    assert Lowering.LowerExp(SUM.l, Built(2, 0)) == (Built(3, 1), Koopa.Res(0));
    assert Lowering.LowerExp(SUM.r, Built(3, 1)) == (Built(3, 1), Koopa.Imm(7));
    assert Lowering.LowerExp(SUM, Built(2, 0)) == (Built(4, 2), Koopa.Res(1));
  }

  lemma ReturnLowered()
    ensures Lowering.LowerItem(RESOLVED.body.tail.tail.head, Built(5, 2)) == Built(7, 3).(returned := true)
  {
    Builds(5, 2);
    Builds(6, 3);
    assert Built(5, 2).next == 2;
    hide Built;
    var g := Source.LVal(Source.Variable(Source.Global(1)));
    assert Lowering.LowerExp(g, Built(5, 2)) == (Built(6, 3), Koopa.Res(2));
  }

  lemma LoweredIs()
    ensures Lowering.LowerFunc(RESOLVED) == FUNC
  {
    assert Lowering.FuncStart([]) == Built(0, 0) by { assert Lowering.ParamInsts([]) == [] == INSTS[..0]; }
    assert !Built(0, 0).returned && !Built(2, 0).returned && !Built(5, 2).returned;
    var t := Built(7, 3).(returned := true);
    assert INSTS[..7] == INSTS;
    DeclarationLowered();
    AssignmentLowered();
    ReturnLowered();
    hide Built, Lowering.LowerItem;
    assert Lowering.LowerItems(RESOLVED.body.tail.tail, Built(5, 2)) == t;
    assert Lowering.LowerItems(RESOLVED.body.tail, Built(2, 0)) == t;
    assert Lowering.LowerItems(RESOLVED.body, Built(0, 0)) == t;
  }

  // ----- printing -----

  const CONTEXT: Codegen.Fn := Codegen.Fn(2, 3, 0, 1)

  /** Three values in the block, one variable, no arguments. */
  lemma ContextIs()
    ensures Codegen.FnOf(2, FUNC) == CONTEXT && Codegen.VarsOf(2, FUNC).stacks == map[X := 12]
  {
    CountsAre();
    var c := Codegen.Fn(2, 3, 0, 0);
    assert [0][..0] == [];
    assert Codegen.AllInsts([INSTS], [0]) == INSTS by { assert [] + INSTS == INSTS; }
    VarsAre(c);
    UnsafePrograms.OneBlock(Codegen.CountVals, INSTS);
    UnsafePrograms.OneBlock(Codegen.CountArgs, INSTS);
    hide Codegen.CountVals, Codegen.CountArgs, Codegen.CountVars, Codegen.MaxOver;
  }

  lemma Prefixes(n: nat)
    requires n < 7
    ensures INSTS[..n + 1][..n] == INSTS[..n] && INSTS[..n + 1][n] == INSTS[n]
    ensures INSTS[..7] == INSTS && INSTS[..0] == []
  {
  }

  lemma ValuesAre()
    ensures Codegen.CountVals(INSTS) == 3
  {
    forall n: nat | n < 7
      ensures Codegen.CountVals(INSTS[..n + 1]) == Codegen.CountVals(INSTS[..n])
                                                   + if Codegen.IntTyped(INSTS[n]) then 1 else 0
    {
      Prefixes(n);
    }
    Prefixes(0);
    assert Codegen.CountVals([]) == 0;
    hide Codegen.CountVals;
    assert Codegen.CountVals(INSTS[..0 + 1]) == 0 && Codegen.CountVals(INSTS[..1 + 1]) == 0;
    assert Codegen.CountVals(INSTS[..2 + 1]) == 1 && Codegen.CountVals(INSTS[..3 + 1]) == 2;
    assert Codegen.CountVals(INSTS[..4 + 1]) == 2 && Codegen.CountVals(INSTS[..5 + 1]) == 3;
    assert Codegen.CountVals(INSTS[..6 + 1]) == 3;
  }

  lemma {:induction false} NoArguments(n: nat)
    requires n <= 7
    ensures Codegen.CountArgs(INSTS[..n]) == 0
  {
    if n > 0 {
      NoArguments(n - 1);
      Prefixes(n - 1);
    }
  }

  lemma CountsAre()
    ensures Codegen.CountVals(INSTS) == 3 && Codegen.CountArgs(INSTS) == 0
  {
    ValuesAre();
    NoArguments(7);
    Prefixes(0);
  }

  lemma VarsAre(c: Codegen.Fn)
    requires c == Codegen.Fn(2, 3, 0, 0)
    ensures Codegen.CountVars(c, 0, INSTS) == Codegen.Vars(1, 0, map[X := 12])
  {
    forall n: nat | n < 7
      ensures Codegen.CountVars(c, 0, INSTS[..n + 1]) ==
              Codegen.CountVar(c, 0, INSTS[n], Codegen.CountVars(c, 0, INSTS[..n]))
    {
      Prefixes(n);
    }
    Prefixes(0);
    var v := Codegen.Vars(1, 0, map[X := 12]);
    assert Codegen.CountVars(c, 0, []) == Codegen.Vars(0, 0, map[]) && c.VarSlot(0) == 12;
    hide Codegen.CountVars;
    assert Codegen.CountVars(c, 0, INSTS[..0 + 1]) == v;
    assert Codegen.CountVars(c, 0, INSTS[..1 + 1]) == v && Codegen.CountVars(c, 0, INSTS[..2 + 1]) == v;
    assert Codegen.CountVars(c, 0, INSTS[..3 + 1]) == v && Codegen.CountVars(c, 0, INSTS[..4 + 1]) == v;
    assert Codegen.CountVars(c, 0, INSTS[..5 + 1]) == v && Codegen.CountVars(c, 0, INSTS[..6 + 1]) == v;
  }

  /** Each of the three immediates and addresses gets the next free register, and the spare ones are not needed. */
  const LISTING: seq<Riscv.Line> :=
    [Riscv.Mark(Riscv.FuncLabel(2)), Riscv.AddSp(-32), Riscv.Sw(Riscv.Ra, 28, Riscv.Sp),
     Riscv.Mark(Riscv.BlockLabel(2, 0)),
     Riscv.Li(Riscv.T(0), 5), Riscv.Sw(Riscv.T(0), 12, Riscv.Sp),
     Riscv.Lw(Riscv.T(0), 12, Riscv.Sp),
     Riscv.Li(Riscv.T(1), 7), Riscv.Alu(Riscv.ADD, Riscv.T(1), Riscv.T(0), Riscv.T(1)),
     Riscv.La(Riscv.T(2), 1), Riscv.Sw(Riscv.T(1), 0, Riscv.T(2)),
     Riscv.La(Riscv.T(3), 1), Riscv.Lw(Riscv.T(2), 0, Riscv.T(3)),
     Riscv.Mv(Riscv.A(0), Riscv.T(2)), Riscv.Lw(Riscv.Ra, 28, Riscv.Sp), Riscv.AddSp(32), Riscv.Ret]

  /** The tables after n instructions. */
  function After(n: nat): Codegen.Em
    requires n <= 7
  {
    var stacks := map[X := 12];
    if n <= 1 then Codegen.Em(stacks, 0, 0, map[])
    else if n == 2 then Codegen.Em(stacks, 1, 0, map[])
    else if n == 3 then Codegen.Em(stacks, 1, 1, map[0 := 0])
    else if n == 4 then Codegen.Em(stacks, 2, 2, map[0 := 0, 1 := 1])
    else if n == 5 then Codegen.Em(stacks, 3, 2, map[0 := 0, 1 := 1])
    else Codegen.Em(stacks, 3, 3, map[0 := 0, 1 := 1, 2 := 2])
  }

  /** Where an instruction's lines begin. */
  function LineAt(n: nat): nat
    requires n <= 7
  {
    match n
    case 0 => 4
    case 1 => 4
    case 2 => 6
    case 3 => 7
    case 4 => 9
    case 5 => 11
    case 6 => 13
    case 7 => 17
  }

  lemma PrintsFirst(n: nat)
    requires n < 4
    ensures Codegen.InstLines(CONTEXT, After(n), INSTS[n]) == (LISTING[LineAt(n)..LineAt(n + 1)], After(n + 1))
  {
    match n
    case 0 => assert LISTING[4..4] == [];
    case 1 => assert [Riscv.Li(Riscv.T(0), 5)] + [] + [Riscv.Sw(Riscv.T(0), 12, Riscv.Sp)] == LISTING[4..6];
    case 2 =>
      assert [] + [Riscv.Lw(Riscv.T(0), 12, Riscv.Sp)] == LISTING[6..7];
      assert Codegen.Define(After(2), 0) == After(3);
    case 3 =>
      var sum := Riscv.Alu(Riscv.ADD, Riscv.T(1), Riscv.T(0), Riscv.T(1));
      assert [] + [Riscv.Li(Riscv.T(1), 7)] + [sum] == LISTING[7..9];
      assert Codegen.Define(After(3), 1) == After(4);
  }

  lemma PrintsOne(n: nat)
    requires n < 7
    ensures Codegen.InstLines(CONTEXT, After(n), INSTS[n]) == (LISTING[LineAt(n)..LineAt(n + 1)], After(n + 1))
  {
    match n
    case 4 => assert [] + [Riscv.La(Riscv.T(2), 1)] + [Riscv.Sw(Riscv.T(1), 0, Riscv.T(2))] == LISTING[9..11];
    case 5 =>
      assert [Riscv.La(Riscv.T(3), 1)] + [Riscv.Lw(Riscv.T(2), 0, Riscv.T(3))] == LISTING[11..13];
      assert Codegen.Define(After(5), 2) == After(6);
    case 6 =>
      assert [] + [Riscv.Mv(Riscv.A(0), Riscv.T(2))] + Codegen.Epilogue(CONTEXT) == LISTING[13..17];
    case _ => PrintsFirst(n);
  }

  lemma Sliced<T>(xs: seq<T>, i: nat, j: nat)
    requires i <= j <= |xs|
    ensures xs[i..j] + xs[j..] == xs[i..]
    ensures i < |xs| ==> xs[i..][0] == xs[i] && xs[i..][1..] == xs[i + 1..]
  {
  }

  lemma PiecesOf(n: nat)
    requires n < 7
    ensures INSTS[n..] != [] && INSTS[n..][0] == INSTS[n] && INSTS[n..][1..] == INSTS[n + 1..]
    ensures LISTING[LineAt(n)..LineAt(n + 1)] + LISTING[LineAt(n + 1)..] == LISTING[LineAt(n)..]
  {
    Sliced(INSTS, n, n);
    assert LineAt(n) <= LineAt(n + 1) <= |LISTING|;
    hide LISTING, LineAt;
    Sliced(LISTING, LineAt(n), LineAt(n + 1));
  }

  lemma PrintsLast()
    ensures Codegen.InstsLines(CONTEXT, After(7), INSTS[7..]).0 == LISTING[LineAt(7)..]
  {
    assert INSTS[7..] == [] && LISTING[17..] == [];
  }

  lemma {:induction false} PrintsFrom(n: nat)
    requires n <= 7
    ensures Codegen.InstsLines(CONTEXT, After(n), INSTS[n..]).0 == LISTING[LineAt(n)..]
    decreases 7 - n
  {
    hide Codegen.InstLines, After, LineAt;
    if n == 7 {
      PrintsLast();
    } else {
      PrintsOne(n);
      PrintsFrom(n + 1);
      PiecesOf(n);
    }
  }

  lemma PrintedAs()
    ensures Codegen.ProgramLines([(2, FUNC)]) == LISTING
  {
    ContextIs();
    PrintsFrom(0);
    hide Codegen.InstsLines, Codegen.FnOf, Codegen.VarsOf, Codegen.Prologue, LISTING;
    assert INSTS[0..] == INSTS && After(0) == Codegen.Fresh(map[X := 12]) && LineAt(0) == 4;
    assert [0][1..] == [] && [(2, FUNC)][1..] == [];
    var ls := [Riscv.Mark(Riscv.BlockLabel(2, 0))] + LISTING[4..];
    assert Codegen.BlocksLines(CONTEXT, map[X := 12], [INSTS], [0]).0 == ls + [];
    assert Codegen.ProgramLines([]) == [];
    WholeListing();
  }

  lemma WholeListing()
    ensures [Riscv.Mark(Riscv.FuncLabel(2))] + Codegen.Prologue(CONTEXT)
            + ([Riscv.Mark(Riscv.BlockLabel(2, 0))] + LISTING[4..] + []) + [] == LISTING
  {
    assert CONTEXT.Size() == 32;
    assert Codegen.Prologue(CONTEXT) == LISTING[1..3];
  }

  // ----- running -----

  const MAIN_CALL: Source.Callee := Source.Callee(2, false)

  lemma OnlyMain(run: Source.Library, f: nat)
    ensures var fs := [(2, RESOLVED)];
            Programs.Find(fs, f) == if f == 2 then Some(RESOLVED) else None
    ensures Programs.LowerProgram(Programs.SourceProgram([(2, RESOLVED)], run)).funcs == [(2, FUNC)]
    ensures Programs.Find([(2, FUNC)], f) == if f == 2 then Some(FUNC) else None
  {
    LoweredIs();
    hide Lowering.LowerFunc;
    assert [(2, RESOLVED)][1..] == [] && [(2, FUNC)][1..] == [] && [(2, FUNC)] + [] == [(2, FUNC)];
    assert Programs.LowerFuncs([]) == [] && Programs.LowerFuncs([(2, RESOLVED)]) == [(2, FUNC)];
  }

  lemma SumOk(fs: LoweringLocal.Funcs, made: set<nat>)
    ensures LoweringLocal.ExpTyped(fs, SUM) && LoweringLocal.LogicFirst(SUM) && !LoweringLocal.HasLogic(SUM)
    ensures 3 in made ==> LoweringLocal.ExpReads(made, SUM)
  {
    assert LoweringLocal.ExpTyped(fs, SUM.l) && LoweringLocal.ExpTyped(fs, SUM.r);
    assert LoweringLocal.ExpReads(made, SUM.r);
    assert !LoweringLocal.HasLogic(SUM.l) && !LoweringLocal.HasLogic(SUM.r);
  }

  lemma DeclarationOk(fs: LoweringLocal.Funcs, made: set<nat>)
    ensures var defs := RESOLVED.body.head.defs;
            && LoweringLocal.DefsTyped(fs, {}, defs) && LoweringLocal.DefsLogicFirst(defs)
            && LoweringLocal.DefsKept(made, false, defs) && !LoweringLocal.DefsClose(false, defs)
            && LoweringLocal.DefsAllocs(false, defs) == {3}
  {
    var defs := RESOLVED.body.head.defs;
    assert LoweringLocal.DefsAllocs(false, defs.tail) == {};
  }

  lemma BodyOk(fs: LoweringLocal.Funcs)
    ensures LoweringLocal.FuncDefOk(fs, RESOLVED)
  {
    var made := LoweringLocal.FuncMade(RESOLVED);
    var rest, ret := RESOLVED.body.tail, RESOLVED.body.tail.tail;
    assert LoweringLocal.ParamSet(RESOLVED) == {};
    DeclarationOk(fs, made);
    SumOk(fs, made);
    hide LoweringLocal.ExpTyped, LoweringLocal.LogicFirst, LoweringLocal.HasLogic, LoweringLocal.DefsTyped,
         LoweringLocal.DefsKept, LoweringLocal.DefsClose, LoweringLocal.DefsAllocs, LoweringLocal.DefsLogicFirst;
    ReturnOk(fs, made);
    assert 3 in made;
    assert LoweringLocal.ItemsTyped(fs, {}, ret) && LoweringLocal.ItemsTyped(fs, {}, rest);
    assert LoweringLocal.ItemsKept(made, false, ret) && LoweringLocal.ItemsKept(made, false, rest);
    assert LoweringLocal.ItemsLogicFirst(ret) && LoweringLocal.ItemsLogicFirst(rest);
  }

  lemma ReturnOk(fs: LoweringLocal.Funcs, made: set<nat>)
    ensures var ret := RESOLVED.body.tail.tail;
            LoweringLocal.ItemsTyped(fs, {}, ret) && LoweringLocal.ItemsLogicFirst(ret)
            && LoweringLocal.ItemsKept(made, false, ret)
  {
    assert LoweringLocal.ItemsTyped(fs, {}, Source.NoItems);
  }

  lemma Emits(run: Source.Library)
    ensures var p := Programs.SourceProgram([(2, RESOLVED)], run);
            EndToEnd.SourceOk(p) && EndToEnd.SafeToEmit(Programs.LowerProgram(p))
            && LoweringLocal.CalleeOk(p.funcs, MAIN_CALL)
  {
    var p := Programs.SourceProgram([(2, RESOLVED)], run);
    BodyOk(p.funcs);
    ContextIs();
    hide LoweringLocal.FuncDefOk, Codegen.FnOf;
    forall f: nat
      ensures Programs.Find(p.funcs, f) == if f == 2 then Some(RESOLVED) else None
      ensures Programs.Find(Programs.LowerProgram(p).funcs, f) == if f == 2 then Some(FUNC) else None
    {
      OnlyMain(run, f);
    }
  }

  /** By scopes: x is 5, g becomes 12, and that is returned. */
  lemma Returns12(o: Source.Oracle, fuel: nat, w: Source.World)
    ensures RunClosure(o, fuel, Closure(false, [], BODY, SEEN), [], w) ==
            Some(Source.Done(Some(12), Source.World(w.globals[1 := 12], w.io)))
  {
    var scopes := SEEN;
    var held := scopes + [Binding("x", Cell(Some(5)))];
    assert scopes + Parameters([], []) == scopes;
    var made := scopes + [Binding("x", Cell(None))];
    Places(made);
    Places(held);
    assert Value(o, made, Name("n"), w) == Got(5, w);
    assert RunItem(o, fuel, DECLARE_X, State(scopes, w)) == Normal(State(held, w));
    var w1 := Source.World(w.globals[1 := 12], w.io);
    assert Value(o, held, Arith(Source.Add, Name("x"), Number(7)), w) == Got(12, w);
    assert RunItem(o, fuel, SET_G, State(held, w)) == Normal(State(held, w1));
    assert RunItem(o, fuel, GIVE_G, State(held, w1)) == Returned(Some(12), w1);
    assert RunItems(o, fuel, BODY.tail.tail, State(held, w1)) == Returned(Some(12), w1);
    assert RunItems(o, fuel, BODY.tail, State(held, w)) == Returned(Some(12), w1);
  }

  lemma Places(scopes: Scopes)
    requires |scopes| == 4 && scopes[0].name == "n" && scopes[1].name == "g" && scopes[2].name == "main"
    requires scopes[3].name == "x"
    ensures Place(scopes, "n") == Some(0) && Place(scopes, "g") == Some(1) && Place(scopes, "x") == Some(3)
  {
    PlaceIsInnermost(scopes, "n");
    PlaceIsInnermost(scopes, "g");
    PlaceIsInnermost(scopes, "x");
  }

  const SEEN: Scopes := [Binding("n", Constant(5)), Binding("g", Shared(1)), Binding("main", Routine(2, false))]

  lemma ConstantBound()
    ensures BindGlobal([], 0, CONSTANT) == Some(SEEN[..1])
  {
    assert Source.Apply(Source.Div, 10, 2) == 5;
    assert Value(NoCalls(), [], TEN_HALVED, Source.World(map[], [])) == Got(5, Source.World(map[], []));
    assert [] + [Binding("n", Constant(5))] == SEEN[..1];
  }

  lemma ClosuresAre()
    ensures Closures(NONE.Scopes(), 0, PROGRAM) == Some([(2, Closure(false, [], BODY, SEEN))])
  {
    assert NONE.Scopes() == [] && PROGRAM[1..] == [GLOBAL, MAIN] && [GLOBAL, MAIN][1..] == [MAIN] && [MAIN][1..] == [];
    assert NamesMeaning.Count(CONSTANT) == 1 && NamesMeaning.Count(GLOBAL) == 1;
    ConstantBound();
    assert BindGlobal(SEEN[..1], 1, GLOBAL) == Some(SEEN[..2]) by {
      assert SharedFrom(1, GLOBAL.defs) == [Binding("g", Shared(1))];
      assert SEEN[..1] + [Binding("g", Shared(1))] == SEEN[..2];
    }
    assert BindGlobal(SEEN[..2], 2, MAIN) == Some(SEEN) by {
      assert SEEN[..2] + [Binding("main", Routine(2, false))] == SEEN;
    }
    var f := Closure(false, [], BODY, SEEN);
    hide BindGlobal, NamesMeaning.Count;
    assert Closures(SEEN, 2 + NamesMeaning.Count(MAIN), []) == Some([]) && [(2, f)] + [] == [(2, f)];
    assert Closures(SEEN[..2], 2, [MAIN]) == Some([(2, f)]);
    assert Closures(SEEN[..1], 1, [GLOBAL, MAIN]) == Some([(2, f)]);
  }

  /** The call of main with names. */
  lemma MainReturns(run: Source.Library, w: Source.World)
    ensures CallNamed(NamedOf(NONE, PROGRAM, run), 1, MAIN_CALL, [], w) ==
            Source.Returns(Source.World(w.globals[1 := 12], w.io), 12)
  {
    ClosuresAre();
    var p := NamedOf(NONE, PROGRAM, run);
    var o, c := NamedCalls(p, 0), p.funcs[0].1;
    var r := Source.Done(Some(12), Source.World(w.globals[1 := 12], w.io));
    forall fuel: nat ensures RunClosure(o, fuel, c, [], w) == Some(r) {
      Returns12(o, fuel, w);
    }
    hide RunClosure;
    assert RunClosure(o, 0, c, [], w) == Some(r);
    assert NamedEndsWith(o, c, [], w, r);
    assert forall q :: NamedEndsWith(o, c, [], w, q) ==> q == r;
    assert Programs.Find(p.funcs, 2) == Some(c);
  }

  lemma SampleNamed(h: Hash, run: Source.Library) returns (f: Table)
    ensures WellNamed(h, NONE, PROGRAM, f) && Compilable(NONE, PROGRAM, run, MAIN_CALL)
    ensures BuildGlobals(h, Initially(h, []), Skeletons(PROGRAM)) == Some(f)
    ensures Resolved(NONE, PROGRAM, run) == Programs.SourceProgram([(2, RESOLVED)], run)
  {
    f := Accepts(h);
    KindsAre();
    ResolvedIs();
    Emits(run);
    OnlyMain(run, 2);
    hide Skeletons, BuildGlobals, LexProgram, ProgramKinds, ProgramNamed, EndToEnd.SourceOk, EndToEnd.SafeToEmit,
         Programs.LowerProgram, FaithfulGlobals, Quiet;
    assert KindsOf(NONE, PROGRAM) == KindAt(KINDS);
  }

  lemma ListingStarts()
    ensures Riscv.Find(LISTING, Riscv.FuncLabel(2)) == 0
  {
  }

  lemma ListingIs(h: Hash, f: Table, run: Source.Library)
    requires WellNamed(h, NONE, PROGRAM, f) && Compilable(NONE, PROGRAM, run, MAIN_CALL)
    requires Resolved(NONE, PROGRAM, run) == Programs.SourceProgram([(2, RESOLVED)], run)
    ensures ReplayGlobals(h, f, Skeletons(PROGRAM)).Some? && Compiled(h, NONE, PROGRAM, f, run) == LISTING
  {
    OnlyMain(run, 2);
    PrintedAs();
    hide WellNamed, EndToEnd.SourceOk, EndToEnd.SafeToEmit, Programs.LowerProgram, Codegen.ProgramLines, Resolved,
         ReplayGlobals, Skeletons, Replaid, CallNamed, NamedOf, LISTING;
    SourceNested(Resolved(NONE, PROGRAM, run));
    ResolvedByReplay(h, NONE, PROGRAM, f, run, 1, MAIN_CALL, [], Source.World(map[], []));
  }

  /** The compiled program returns 12, by every step of the compiler: the table of the first pass, the answers of the
      second, lowering and code generation. */
  lemma Compiles(h: Hash, run: Source.Library, w: Source.World, env: Riscv.Env, top: int, m: Riscv.Machine)
    returns (f: Table, u: Riscv.Machine)
    requires env.lib == run && CodegenEntry.EnvOk(env, top) && CodegenEntry.EntryOk(env, top, [], w, m) && m.pc == 0
    ensures BuildGlobals(h, Initially(h, []), Skeletons(PROGRAM)) == Some(f)
    ensures ReplayGlobals(h, f, Skeletons(PROGRAM)).Some? && Compiled(h, NONE, PROGRAM, f, run) == LISTING
    ensures Riscv.MReaches(LISTING, env, m, u) && u.pc == Riscv.Get(m, Riscv.Ra) && !u.trapped
    ensures Riscv.Get(u, Riscv.A(0)) == 12 && Riscv.Peek(u, env.address(1)) == 12
  {
    f := SampleNamed(h, run);
    ListingIs(h, f, run);
    MainReturns(run, w);
    ListingStarts();
    hide WellNamed, Compilable, BuildGlobals, ReplayGlobals, Skeletons, Compiled, CallNamed, NamedOf, Resolved,
         CodegenEntry.EntryOk, CodegenEntry.EnvOk, Riscv.MReaches, Riscv.Find, LISTING;
    var w1 := Source.World(w.globals[1 := 12], w.io);
    u := CompiledFromNames(h, NONE, PROGRAM, f, run, 1, MAIN_CALL, [], w, w1, 12, env, top, m);
    assert 1 in w1.globals;
  }
}
