/**
 * The theorems about whole functions and whole programs.
 */
module LoweringTheorem {
  import opened Words
  import opened Source
  import opened Koopa
  import opened Lowering
  import opened LoweringShape
  import opened LoweringMeaning

  lemma {:induction false} ParamPrefix(params: seq<nat>, n: nat)
    requires n <= |params|
    ensures |ParamInsts(params)| == 2 * |params|
    ensures ParamInsts(params[..n]) <= ParamInsts(params)
    decreases |params|
  {
    var m := |params| - 1;
    if n <= m {
      ParamPrefix(params[..m], n);
      assert params[..m][..n] == params[..n];
    } else {
      assert params[..n] == params;
      if params != [] {
        ParamPrefix(params[..m], m);
      }
    }
  }

  /** The first instructions of the entry block bind the parameters. */
  lemma {:induction false} SimParams(g: Graph, k: Ctx, b: nat, params: seq<nat>, w: World, n: nat)
    requires n <= |params| == |k.args| && b < |g| && ParamInsts(params) <= g[b]
    ensures Reaches(g, k, At(b, 0, map[], map[], Source.Store(map[], w)),
                    At(b, 2 * n, map[], map[], Source.Store(BindParams(params[..n], k.args[..n]), w)))
  {
    var start := At(b, 0, map[], map[], Source.Store(map[], w));
    if n == 0 {
      Stays(g, k, start);
    } else {
      var m := n - 1;
      SimParams(g, k, b, params, w, m);
      ParamPrefix(params, n);
      ParamPrefix(params[..n], n);
      ParamPrefix(params[..m], m);
      assert params[..n][..m] == params[..m] && k.args[..n][..m] == k.args[..m];
      var c := At(b, 2 * m, map[], map[], Source.Store(BindParams(params[..m], k.args[..m]), w));
      assert ParamInsts(params[..n]) <= g[b];
      assert g[b][2 * m] == ParamInsts(params[..n])[2 * m] == Alloc(Of(Local(params[m])));
      assert g[b][2 * m + 1] == ParamInsts(params[..n])[2 * m + 1];
      var d := Step(g, k, c);
      StepReaches(g, k, c);
      StepReaches(g, k, d);
      Then(g, k, start, c, d);
      Then(g, k, start, d, Step(g, k, d));
      assert (BindParams(params[..m], k.args[..m]) - {params[m]})[params[m] := k.args[m]]
          == BindParams(params[..m], k.args[..m])[params[m] := k.args[m]];
    }
  }

  /** One direction for each fuel: an ended run is matched by a halting one, an unended run by one at
      least as long. */
  lemma SimFunc(o: Oracle, fuel: nat, fd: FuncDef, args: seq<Word>, w: World)
    requires |args| == |fd.params| && ItemsWellNested(fd.body, false)
    ensures var fn := LowerFunc(fd);
            fn.bbs != []
            && match RunFunc(o, fuel, fd, args, w)
               case Some(r) => Reaches(fn.blocks, Ctx(o, args), Initial(fn, w), Halted(r))
               case None => Lasts(fn.blocks, Ctx(o, args), Initial(fn, w), fuel)
  {
    var fn, k := LowerFunc(fd), Ctx(o, args);
    var g := fn.blocks;
    var s := FuncStart(fd.params);
    var t := LowerItems(fd.body, s).(returned := false);
    var c := At(0, 2 * |args|, map[], map[], Source.Store(BindParams(fd.params, args), w));
    EntryFirst(fd);
    ParamPrefix(fd.params, |args|);
    assert fd.params[..|args|] == fd.params && args[..|args|] == args;
    SimParams(g, k, 0, fd.params, w, |args|);
    ItemsGrow(fd.body, s);
    assert Extended(t.blocks, g);
    ParamsOpen(fd.params);
    var r := ExecItems(o, fuel, fd.body, c.s);
    var d := SimItems(g, k, fuel, fd.body, s, c);
    FollowsAfter(g, k, fuel, r, s, LowerItems(fd.body, s), Initial(fn, w), c, d);
    OnlyLoopsBreakItems(o, fuel, fd.body, c.s);
    if r.Normal? {
      SimEnd(fd, k, d);
      Then(g, k, Initial(fn, w), d, Halted(if fd.isVoid then Done(None, r.s.w) else FellOff));
    }
  }

  lemma ParamsOpen(params: seq<nat>)
    ensures !Terminated(ParamInsts(params))
  {
  }

  /** The entry block comes first and holds the parameters' instructions first. */
  lemma EntryFirst(fd: FuncDef)
    ensures var fn := LowerFunc(fd);
            fn.bbs != [] && fn.bbs[0] == 0 && fn.blocks != [] && ParamInsts(fd.params) <= fn.blocks[0]
  {
    ItemsGrow(fd.body, FuncStart(fd.params));
  }

  /** Reaching the end of the last block: a void function has a `return` there, an int function has
      nothing. */
  lemma SimEnd(fd: FuncDef, k: Ctx, d: Config)
    requires AtEnd(LowerItems(fd.body, FuncStart(fd.params)), d)
    ensures Reaches(LowerFunc(fd).blocks, k, d, Halted(if fd.isVoid then Done(None, d.s.w) else FellOff))
  {
    StepReaches(LowerFunc(fd).blocks, k, d);
  }

  /** Lowering preserves meaning: a body ends with a result on some amount of fuel exactly when the blocks
      built for it reach that result, so they run forever exactly when it does. */
  lemma LoweringPreservesMeaning(o: Oracle, fd: FuncDef, args: seq<Word>, w: World, r: Result)
    requires |args| == |fd.params| && ItemsWellNested(fd.body, false)
    ensures var fn := LowerFunc(fd);
            fn.bbs != []
            && ((exists fuel: nat :: RunFunc(o, fuel, fd, args, w) == Some(r))
                <==> Reaches(fn.blocks, Ctx(o, args), Initial(fn, w), Halted(r)))
  {
    var fn, k := LowerFunc(fd), Ctx(o, args);
    EntryFirst(fd);
    var c := Initial(fn, w);
    forall fuel: nat | RunFunc(o, fuel, fd, args, w) == Some(r)
      ensures Reaches(fn.blocks, k, c, Halted(r))
    {
      SimFunc(o, fuel, fd, args, w);
    }
    if Reaches(fn.blocks, k, c, Halted(r)) {
      var n: nat :| Steps(fn.blocks, k, c, n) == Halted(r);
      SimFunc(o, n, fd, args, w);
      assert !Lasts(fn.blocks, k, c, n);
      OneResult(fn.blocks, k, c, r, RunFunc(o, n, fd, args, w).value);
    }
  }
}
