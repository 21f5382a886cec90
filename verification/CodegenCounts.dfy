/**
 * What the counts of a function are: how many values, arguments and variables there really are.
 */
module CodegenCounts {
  import opened Koopa
  import opened Codegen
  import opened Lists

  // ----- one block -----

  /** Where the instructions of type i32 are. */
  function ValuesAt(insts: seq<Inst>): set<nat>
  {
    set k: nat | k < |insts| && IntTyped(insts[k])
  }

  /** count_vals counts each of them once. */
  lemma {:induction false} CountValsIs(insts: seq<Inst>)
    ensures CountVals(insts) == |ValuesAt(insts)|
  {
    if insts == [] {
      assert ValuesAt(insts) == {};
    } else {
      var n := |insts| - 1;
      CountValsIs(insts[..n]);
      assert ValuesAt(insts) == ValuesAt(insts[..n]) + if IntTyped(insts[n]) then {n} else {};
    }
  }

  lemma CountArgsLast(xs: seq<Inst>, i: Inst)
    ensures CountArgs(xs + [i]) == CountArgs(xs) + if i.Call? then |i.args| else 0
  {
    assert (xs + [i])[..|xs|] == xs;
  }

  /** count_args adds up the arguments of every call: this and the next settle it for every block. */
  lemma {:induction false} CountArgsJoin(xs: seq<Inst>, ys: seq<Inst>)
    ensures CountArgs(xs + ys) == CountArgs(xs) + CountArgs(ys)
    decreases |ys|
  {
    if ys == [] {
      assert xs + ys == xs;
    } else {
      var most, last := ys[..|ys| - 1], ys[|ys| - 1];
      hide CountArgs;
      CountArgsJoin(xs, most);
      CountArgsLast(xs + most, last);
      CountArgsLast(most, last);
      Group3(xs, most, [last]);
      assert ys == most + [last];
    }
  }

  lemma CountArgsOne(i: Inst)
    ensures CountArgs([i]) == if i.Call? then |i.args| else 0
  {
    CountArgsLast([], i);
    assert [] + [i] == [i];
  }

  // ----- over the blocks -----

  /** m is the largest count, and 0 if there are no blocks. */
  ghost predicate Largest(count: seq<Inst> -> nat, g: Graph, bbs: seq<nat>, m: nat)
  {
    && (forall b :: b in bbs ==> count(BlockAt(g, b)) <= m)
    && (bbs != [] ==> exists b :: b in bbs && count(BlockAt(g, b)) == m)
    && (bbs == [] ==> m == 0)
  }

  lemma {:induction false} MaxOverIsLargest(count: seq<Inst> -> nat, g: Graph, bbs: seq<nat>)
    ensures Largest(count, g, bbs, MaxOver(count, g, bbs))
  {
    if bbs != [] {
      var n := |bbs| - 1;
      MaxOverIsLargest(count, g, bbs[..n]);
      assert forall b :: b in bbs <==> b in bbs[..n] || b == bbs[n];
      if bbs[..n] != [] {
        var b :| b in bbs[..n] && count(BlockAt(g, b)) == MaxOver(count, g, bbs[..n]);
        assert b in bbs;
      }
    }
  }

  // ----- the variables -----

  /** Where the allocs are. */
  function AllocsAt(insts: seq<Inst>): set<nat>
  {
    set k: nat | k < |insts| && insts[k].Alloc?
  }

  /** The parameters the caller passes on the stack, of which the first n have been met. */
  function Stacked(params: nat, n: nat): nat
  {
    var met := Min(params, n);
    if met > A_MAX then met - A_MAX else 0
  }

  /** Every alloc is a local, save those of the parameters after the eighth. */
  lemma {:induction false} CountVarsExactly(fn: Fn, params: nat, insts: seq<Inst>)
    ensures var v, n := CountVars(fn, params, insts), |AllocsAt(insts)|;
            v.parSpill == Stacked(params, n) && v.varCount == n - Stacked(params, n)
  {
    if insts == [] {
      assert AllocsAt(insts) == {};
    } else {
      var n := |insts| - 1;
      CountVarsExactly(fn, params, insts[..n]);
      AllocsLast(insts);
    }
  }

  lemma AllocsLast(insts: seq<Inst>)
    requires insts != []
    ensures var n := |insts| - 1; |AllocsAt(insts)| == |AllocsAt(insts[..n])| + if insts[n].Alloc? then 1 else 0
  {
    var n := |insts| - 1;
    assert AllocsAt(insts) == AllocsAt(insts[..n]) + if insts[n].Alloc? then {n} else {};
  }

  // ----- a function's context -----

  /** A function reserves registers and frame for its largest block and for its variables, and for nothing else. */
  lemma FnOfIs(f: nat, fn: Func)
    ensures var c := FnOf(f, fn);
            && (forall b :: b in fn.bbs ==> |ValuesAt(BlockAt(fn.blocks, b))| <= c.valCount
                                            && CountArgs(BlockAt(fn.blocks, b)) <= c.argCount)
            && (fn.bbs != [] ==>
                  && (exists b :: b in fn.bbs && |ValuesAt(BlockAt(fn.blocks, b))| == c.valCount)
                  && (exists b :: b in fn.bbs && CountArgs(BlockAt(fn.blocks, b)) == c.argCount))
            && var n := |AllocsAt(AllInsts(fn.blocks, fn.bbs))|; c.varCount == n - Stacked(fn.params, n)
  {
    MaxOverIsLargest(CountVals, fn.blocks, fn.bbs);
    MaxOverIsLargest(CountArgs, fn.blocks, fn.bbs);
    forall b ensures CountVals(BlockAt(fn.blocks, b)) == |ValuesAt(BlockAt(fn.blocks, b))| {
      CountValsIs(BlockAt(fn.blocks, b));
    }
    var c := FnOf(f, fn);
    CountVarsExactly(Fn(f, c.valCount, c.argCount, 0), fn.params, AllInsts(fn.blocks, fn.bbs));
    if fn.bbs != [] {
      var b :| b in fn.bbs && CountVals(BlockAt(fn.blocks, b)) == c.valCount;
      assert |ValuesAt(BlockAt(fn.blocks, b))| == c.valCount;
    }
  }
}
