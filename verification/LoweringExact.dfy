/**
 * Exactly which functions are lowered to local code, and what that means for functions without dead code.
 */
module LoweringExact {
  import opened Words
  import opened Source
  import opened Koopa
  import opened Lowering
  import opened LoweringShape
  import opened LoweringLocal
  import opened LoweringOwn
  import opened LoweringSlots
  import LoweringCfg
  import LoweringTheorem

  // ----- the parameters -----

  lemma {:induction false} ParamsMade(params: seq<nat>, i: nat)
    requires i < |params|
    ensures Allocates(ParamInsts(params), Of(Var.Local(params[i])))
  {
    var n := |params| - 1;
    var insts := ParamInsts(params);
    if i == n {
      assert AllocOf(insts[|insts| - 2], Of(Var.Local(params[n])));
    } else {
      ParamsMade(params[..n], i);
      var j :| 0 <= j < |ParamInsts(params[..n])| && AllocOf(ParamInsts(params[..n])[j], Of(Var.Local(params[i])));
      assert AllocOf(insts[j], Of(Var.Local(params[i])));
    }
  }

  /** They name parameters only. */
  lemma {:induction false} ParamsOnly(params: seq<nat>, i: nat)
    requires i < |ParamInsts(params)|
    ensures var inst := ParamInsts(params)[i];
            (inst.Alloc? || inst.Store?)
            && (var p := if inst.Alloc? then inst.slot else inst.dest; p.Of? && p.v.Local? && p.v.x in params)
  {
    var n := |params| - 1;
    if i < |ParamInsts(params[..n])| {
      ParamsOnly(params[..n], i);
    }
  }

  /** Before the body: all is as it should be, and exactly the parameters have an `alloc`. */
  lemma StartOk(fs: Funcs, fd: FuncDef)
    ensures var r, s := RulesOf(fs, fd), FuncStart(fd.params);
            && Based(r, s) && OpenAt(s) && Own(r, s.blocks) && Proper(r, s.blocks)
            && Numbered(s.blocks, s.next) && Held(r, s.blocks)
            && forall p: Slot :: AllocatedIn(s.blocks, p) <==> p.Of? && p.v.Local? && p.v.x in fd.params
  {
    var r, s := RulesOf(fs, fd), FuncStart(fd.params);
    var g := s.blocks;
    LoweringTheorem.ParamPrefix(fd.params, 0);
    LoweringTheorem.ParamsOpen(fd.params);
    assert Tail(r.skip, g, 0) == [];
    forall k: nat | k < |g[0]| ensures Below(g[0][k], 0) && UseOk(r, g, g[0][k]) {
      ParamsOnly(fd.params, k);
    }
    forall p: Slot ensures AllocatedIn(g, p) <==> p.Of? && p.v.Local? && p.v.x in fd.params {
      ParamAllocated(fd, p);
    }
  }

  lemma ParamAllocated(fd: FuncDef, p: Slot)
    ensures AllocatedIn(FuncStart(fd.params).blocks, p) <==> p.Of? && p.v.Local? && p.v.x in fd.params
  {
    var g := FuncStart(fd.params).blocks;
    if AllocatedIn(g, p) {
      var k :| 0 <= k < |g[0]| && AllocOf(g[0][k], p);
      ParamsOnly(fd.params, k);
    }
    if p.Of? && p.v.Local? && p.v.x in fd.params {
      var i :| 0 <= i < |fd.params| && fd.params[i] == p.v.x;
      ParamsMade(fd.params, i);
      assert Allocates(g[0], p);
    }
  }

  // ----- functions -----

  /** The end of a void function adds a `return` at most. */
  lemma EndIs(fd: FuncDef)
    requires ItemsWellNested(fd.body, false)
    ensures var t := LowerItems(fd.body, FuncStart(fd.params)).(returned := false);
            LowerBody(fd) == t || LowerBody(fd) == Append(t, Inst.Return(None))
  {
    hide LoweringCfg.Cfg, FuncEnd;
    var s := FuncStart(fd.params);
    LoweringCfg.StartCfg(fd.params);
    LoweringCfg.ItemsCfg(fd.body, false, s, {}, {});
    var t := LowerItems(fd.body, s).(returned := false);
    LoweringCfg.CfgSame(LowerItems(fd.body, s), t, {}, {});
    LoweringCfg.EndCfg(fd.isVoid, t);
  }

  /** In a lowered function, dead code included, every operand is a value of its own block if and only if no `&&` or
      `||` that lowering comes to follows a non-constant sibling. */
  lemma OwnExactly(fs: Funcs, fd: FuncDef)
    requires FuncTyped(fs, fd)
    ensures Own(RulesOf(fs, fd), LowerFunc(fd).blocks) <==> ItemsLogicFirst(fd.body)
    ensures Proper(RulesOf(fs, fd), LowerFunc(fd).blocks) && Based(RulesOf(fs, fd), LowerBody(fd))
  {
    hide Own, Proper, Based, OpenAt, Numbered, Held, AllocatedIn, LowerItems, ItemsTyped, FuncEnd;
    var r, s := RulesOf(fs, fd), FuncStart(fd.params);
    StartOk(fs, fd);
    ItemsOwn(r, fd.body, s);
    EndIs(fd);
    var u := LowerItems(fd.body, s);
    var t := u.(returned := false);
    KeepsMeans(r, ItemsLogicFirst(fd.body), s, u);
    BasedMeans(r, u);
    KeepsSame(r, ItemsLogicFirst(fd.body), s, u, t);
    KeepsMore(r, ItemsLogicFirst(fd.body), s, t, Inst.Return(None));
  }

  /** The variables with an `alloc` are those the source rule says, and every slot used has one if and only if the
      body needs none that was dropped. */
  lemma HeldExactly(fs: Funcs, fd: FuncDef)
    requires FuncTyped(fs, fd)
    ensures Held(RulesOf(fs, fd), LowerFunc(fd).blocks) <==> ItemsKept(FuncMade(fd), false, fd.body)
    ensures forall x :: AllocatedIn(LowerFunc(fd).blocks, Of(Var.Local(x))) <==> x in FuncMade(fd)
  {
    hide Own, Proper, OpenAt, Numbered, Held, AllocatedIn, LowerItems, ItemsTyped, FuncEnd, ItemsKept, ItemsAllocs;
    var r, s := RulesOf(fs, fd), FuncStart(fd.params);
    StartOk(fs, fd);
    ItemsSlots(r, fd.body, s);
    EndIs(fd);
    var u, ok, xs := LowerItems(fd.body, s), ItemsKept(r.made, false, fd.body), ItemsAllocs(false, fd.body);
    var t := u.(returned := false);
    HoldsSame(r, ok, xs, s, u, t);
    OwnExactly(fs, fd);
    AppendSame(t, Inst.Return(None));
    assert Valid(t);
    HoldsMore(r, ok, xs, s, t, Inst.Return(None));
  }

  /** With these allocs, the two together are what code generation is given. */
  lemma CleanIs(r: Rules, g: Graph)
    requires g != [] && r.skip <= |g[0]| && Proper(r, g)
    requires forall x :: AllocatedIn(g, Of(Var.Local(x))) <==> x in r.made
    requires forall k: nat :: g != [] && k < r.skip ==> UseOk(r, g, g[0][k])
    ensures Clean(r, g) <==> Own(r, g) && Held(r, g)
  {
    hide AllocatedIn, UsesOwn;
    assert forall p: Slot :: Made(g, p) <==> PlacedIn(r, g, p);
    assert forall i: Inst :: Fine(r, g, i) <==> UseOk(r, g, i) && Decent(r, i);
    hide Made, PlacedIn, Fine, UseOk, Decent;
    if Clean(r, g) {
      forall b: nat, k: nat | b < |g| && k < |g[b]| ensures UseOk(r, g, g[b][k]) {
        var xs := Tail(r.skip, g, b);
        var n := |g[b]| - |xs|;
        if k >= n { assert Fine(r, g, xs[k - n]); }
      }
    }
    if Own(r, g) && Held(r, g) {
      forall b: nat, k: nat | b < |g| && k < |Tail(r.skip, g, b)| ensures Fine(r, g, Tail(r.skip, g, b)[k]) {
        var xs := Tail(r.skip, g, b);
        assert xs[k] == g[b][|g[b]| - |xs| + k];
        assert UseOk(r, g, g[b][|g[b]| - |xs| + k]) && Decent(r, xs[k]);
      }
    }
  }

  /** A lowered function is local, with every slot used allocated, if and only if its logical operators come first
      and nothing is used that was dropped after a `return`. */
  lemma LocalExactly(fs: Funcs, fd: FuncDef)
    requires FuncTyped(fs, fd)
    ensures Clean(RulesOf(fs, fd), LowerFunc(fd).blocks)
            <==> ItemsLogicFirst(fd.body) && ItemsKept(FuncMade(fd), false, fd.body)
  {
    hide Own, Proper, Held, AllocatedIn, Clean, FuncTyped, ItemsLogicFirst, ItemsKept, FuncMade, UseOk, LowerBody;
    OwnExactly(fs, fd);
    HeldExactly(fs, fd);
    ParamUses(fs, fd);
    CleanIs(RulesOf(fs, fd), LowerFunc(fd).blocks);
  }

  lemma ParamUses(fs: Funcs, fd: FuncDef)
    requires FuncTyped(fs, fd)
    ensures var r, g := RulesOf(fs, fd), LowerFunc(fd).blocks;
            g != [] && r.skip <= |g[0]| && forall k: nat :: k < r.skip ==> UseOk(r, g, g[0][k])
  {
    hide LowerBody;
    var r, g := RulesOf(fs, fd), LowerFunc(fd).blocks;
    LoweringTheorem.EntryFirst(fd);
    LoweringTheorem.ParamPrefix(fd.params, 0);
    forall k: nat | k < r.skip ensures UseOk(r, g, g[0][k]) {
      ParamsOnly(fd.params, k);
      assert g[0][k] == ParamInsts(fd.params)[k];
    }
  }

  /** Under the source condition, the code is local. */
  lemma LoweredIsLocal(fs: Funcs, fd: FuncDef)
    requires FuncDefOk(fs, fd)
    ensures Clean(RulesOf(fs, fd), LowerFunc(fd).blocks)
  {
    hide Clean, LowerFunc, FuncTyped, ItemsLogicFirst, ItemsKept;
    LocalExactly(fs, fd);
  }

  // ----- functions without dead code -----

  /** Whatever is used is in scope, and nothing follows a nested block that ends in `return`. */
  predicate StmtTidy(scope: set<nat>, st: Stmt)
    decreases st
  {
    match st
    case Assign(v, e) => ExpReads(scope, e) && (v.Local? ==> v.x in scope)
    case Eval(e) => ExpReads(scope, e)
    case Block(items) => ItemsTidy(scope, items)
    case Return(ret) => ret.Some? ==> ExpReads(scope, ret.value)
    case If(c, t, f) => ExpReads(scope, c) && StmtTidy(scope, t) && (f.Some? ==> StmtTidy(scope, f.value))
    case While(c, body) => ExpReads(scope, c) && StmtTidy(scope, body)
    case _ => true
  }

  predicate ItemsTidy(scope: set<nat>, items: Items)
    decreases items
  {
    match items
    case NoItems => true
    case Items(ConstDecl, rest) => ItemsTidy(scope, rest)
    case Items(VarDecl(defs), rest) => DefsTidy(scope, defs) && ItemsTidy(scope + Declared(defs), rest)
    case Items(Stm(st), rest) =>
      StmtTidy(scope, st) && (st.Return? || ((StmtCloses(false, st) ==> rest == NoItems) && ItemsTidy(scope, rest)))
  }

  predicate DefsTidy(scope: set<nat>, defs: Defs)
    decreases defs
  {
    match defs
    case NoDefs => true
    case Defs(VarDef(x, init), rest) =>
      (init.Some? ==> ExpReads(scope + {x}, init.value)) && DefsTidy(scope + {x}, rest)
  }

  function Declared(defs: Defs): set<nat>
  {
    if defs.NoDefs? then {} else {defs.head.x} + Declared(defs.tail)
  }

  /** Without dead code nothing is dropped: names in scope are enough. */
  lemma {:induction false} TidyStmtKept(made: set<nat>, scope: set<nat>, st: Stmt)
    requires StmtTidy(scope, st) && scope <= made && StmtAllocs(false, st) <= made
    ensures StmtKept(made, false, st)
    decreases st
  {
    match st
    case Assign(_, e) => ReadsMore(scope, made, e);
    case Eval(e) => ReadsMore(scope, made, e);
    case Block(items) => TidyIsKept(made, scope, items);
    case Return(Some(e)) => ReadsMore(scope, made, e);
    case If(c, t, f) =>
      ReadsMore(scope, made, c);
      TidyStmtKept(made, scope, t);
      if f.Some? { TidyStmtKept(made, scope, f.value); }
    case While(c, body) =>
      ReadsMore(scope, made, c);
      TidyStmtKept(made, scope, body);
    case _ =>
  }

  lemma {:induction false} TidyIsKept(made: set<nat>, scope: set<nat>, items: Items)
    requires ItemsTidy(scope, items) && scope <= made && ItemsAllocs(false, items) <= made
    ensures ItemsKept(made, false, items)
    decreases items
  {
    match items
    case NoItems =>
    case Items(ConstDecl, rest) => TidyIsKept(made, scope, rest);
    case Items(VarDecl(defs), rest) =>
      DefsKeptOpen(made, scope, defs);
      TidyIsKept(made, scope + Declared(defs), rest);
    case Items(Stm(st), rest) =>
      TidyStmtKept(made, scope, st);
      if !st.Return? && rest != NoItems { TidyIsKept(made, scope, rest); }
  }

  lemma {:induction false} DefsKeptOpen(made: set<nat>, scope: set<nat>, defs: Defs)
    requires DefsTidy(scope, defs) && scope <= made && DefsAllocs(false, defs) <= made
    ensures DefsKept(made, false, defs) && !DefsClose(false, defs) && Declared(defs) <= made
    decreases defs
  {
    if defs.Defs? {
      var VarDef(x, init) := defs.head;
      if init.Some? { ReadsMore(scope + {x}, made, init.value); }
      DefsKeptOpen(made, scope + {x}, defs.tail);
    }
  }

  lemma {:induction false} ReadsMore(scope: set<nat>, made: set<nat>, e: Exp)
    requires ExpReads(scope, e) && scope <= made
    ensures ExpReads(made, e)
    decreases e
  {
    match e
    case Call(_, args) => ArgsReadMore(scope, made, args);
    case Plus(e0) => ReadsMore(scope, made, e0);
    case Neg(e0) => ReadsMore(scope, made, e0);
    case Not(e0) => ReadsMore(scope, made, e0);
    case Binary(_, l, r) =>
      ReadsMore(scope, made, l);
      ReadsMore(scope, made, r);
    case Logic(_, l, r) =>
      ReadsMore(scope, made, l);
      ReadsMore(scope, made, r);
    case _ =>
  }

  lemma {:induction false} ArgsReadMore(scope: set<nat>, made: set<nat>, es: Exps)
    requires ArgsRead(scope, es) && scope <= made
    ensures ArgsRead(made, es)
    decreases es
  {
    if es.Exps? {
      ReadsMore(scope, made, es.head);
      ArgsReadMore(scope, made, es.tail);
    }
  }

  // ----- three functions -----

  const VAR_A := LVal(Variable(Var.Local(0)))

  const VAR_B := LVal(Variable(Var.Local(1)))

  /** `return a + (a && b);` loads a in one block and adds it in another. */
  lemma LogicSecondFails(fs: Funcs)
    ensures var sum := Exp.Binary(Add, VAR_A, Logic(Land, VAR_A, VAR_B));
            var fd := FuncDef(false, [0, 1], Items(Stm(Stmt.Return(Some(sum))), NoItems));
            FuncTyped(fs, fd) && !Own(RulesOf(fs, fd), LowerFunc(fd).blocks)
  {
    hide Own, LowerFunc;
    var both := Logic(Land, VAR_A, VAR_B);
    var sum := Exp.Binary(Add, VAR_A, both);
    var fd := FuncDef(false, [0, 1], Items(Stm(Stmt.Return(Some(sum))), NoItems));
    assert ExpTyped(fs, VAR_A) && ExpTyped(fs, VAR_B) && ExpTyped(fs, both);
    assert HasLogic(both) && !ConstantOperand(VAR_A);
    OwnExactly(fs, fd);
  }

  /** `{ return; }` and what follows it. */
  function AfterReturn(rest: Items): Items { Items(Stm(Block(Items(Stm(Stmt.Return(None)), NoItems))), rest) }

  lemma AfterReturnMeans(fs: Funcs, params: set<nat>, made: set<nat>, rest: Items)
    ensures ItemsTyped(fs, params, AfterReturn(rest)) <==> ItemsTyped(fs, params, rest)
    ensures ItemsWellNested(AfterReturn(rest), false) <==> ItemsWellNested(rest, false)
    ensures ItemsLogicFirst(AfterReturn(rest)) <==> ItemsLogicFirst(rest)
    ensures ItemsAllocs(false, AfterReturn(rest)) == ItemsAllocs(true, rest)
    ensures ItemsKept(made, false, AfterReturn(rest)) <==> ItemsKept(made, true, rest)
  {
    var ret := Items(Stm(Stmt.Return(None)), NoItems);
    assert ItemsClose(false, ret) && ItemsAllocs(false, ret) == {} && ItemsKept(made, false, ret);
    assert StmtCloses(false, Block(ret)) && StmtAllocs(false, Block(ret)) == {} && StmtKept(made, false, Block(ret));
    assert ItemsTyped(fs, params, ret) && ItemsLogicFirst(ret) && ItemsWellNested(ret, false);
  }

  const DEAD_ALLOC := Items(VarDecl(Defs(VarDef(0, None), NoDefs)), Items(Stm(While(VAR_A, Empty)), NoItems))

  lemma DeadAllocKept(made: set<nat>)
    ensures ItemsAllocs(true, DEAD_ALLOC) == {} && (ItemsKept(made, true, DEAD_ALLOC) <==> 0 in made)
  {
    var Items(decl, loop) := DEAD_ALLOC;
    assert DefsAllocs(true, decl.defs) == {} && DefsClose(true, decl.defs) && ItemsAllocs(true, loop) == {};
    assert ExpReads(made, VAR_A) <==> 0 in made;
    assert StmtKept(made, true, loop.head.s) <==> 0 in made;
    assert ItemsKept(made, false, NoItems);
    assert DefsKept(made, true, decl.defs) && (ItemsKept(made, true, loop) <==> 0 in made);
  }

  lemma DeadAllocTyped(fs: Funcs, params: set<nat>)
    requires 0 !in params
    ensures ItemsTyped(fs, params, DEAD_ALLOC) && ItemsWellNested(DEAD_ALLOC, false) && ItemsLogicFirst(DEAD_ALLOC)
  {
    var Items(decl, loop) := DEAD_ALLOC;
    assert ItemsTyped(fs, params, loop) && ItemsWellNested(loop, false) && ItemsLogicFirst(loop);
  }

  /** `void f() { { return; } int a; while (a) ; }` loads a, and no `alloc` for it is left: it was dropped with
      everything else after the `return`. */
  lemma DeadAllocFails(fs: Funcs)
    ensures var fd := FuncDef(true, [], AfterReturn(DEAD_ALLOC));
            FuncTyped(fs, fd) && ItemsLogicFirst(fd.body) && !Clean(RulesOf(fs, fd), LowerFunc(fd).blocks)
  {
    hide Clean, LowerFunc, AfterReturn, ItemsTyped, ItemsLogicFirst, ItemsKept, ItemsAllocs, ItemsWellNested;
    var fd := FuncDef(true, [], AfterReturn(DEAD_ALLOC));
    AfterReturnMeans(fs, ParamSet(fd), {}, DEAD_ALLOC);
    DeadAllocKept({});
    DeadAllocTyped(fs, ParamSet(fd));
    assert FuncMade(fd) == {};
    LocalExactly(fs, fd);
  }

  const DEAD_STORE := Items(Stm(Assign(Var.Local(0), Num(1))), NoItems)

  lemma DeadStoreKept(fs: Funcs, params: set<nat>, made: set<nat>)
    ensures ItemsTyped(fs, params, DEAD_STORE) && ItemsWellNested(DEAD_STORE, false) && ItemsLogicFirst(DEAD_STORE)
    ensures ItemsKept(made, true, DEAD_STORE)
  {
  }

  /** `void f(int a) { { return; } a = 1; }` is local: the store is dropped. */
  lemma DeadStoreIsLocal(fs: Funcs)
    ensures var fd := FuncDef(true, [0], AfterReturn(DEAD_STORE));
            FuncDefOk(fs, fd) && Clean(RulesOf(fs, fd), LowerFunc(fd).blocks)
  {
    hide Clean, LowerFunc, AfterReturn, ItemsTyped, ItemsLogicFirst, ItemsKept, ItemsAllocs, ItemsWellNested, FuncMade;
    var fd := FuncDef(true, [0], AfterReturn(DEAD_STORE));
    AfterReturnMeans(fs, ParamSet(fd), FuncMade(fd), DEAD_STORE);
    DeadStoreKept(fs, ParamSet(fd), FuncMade(fd));
    LocalExactly(fs, fd);
  }
}
