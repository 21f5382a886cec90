/**
 * The shape of the printed code: labels, where each block is, the counts, and the slots registered.
 */
module CodegenLayout {
  import opened Source
  import opened Koopa
  import opened Riscv
  import opened Codegen
  import opened CodegenCalls
  import opened Lists
  import Lowering

  // ----- labels -----

  predicate NoMark(ls: seq<Line>, l: Label) { forall i :: 0 <= i < |ls| ==> ls[i] != Mark(l) }

  predicate NoMarks(ls: seq<Line>) { forall i :: 0 <= i < |ls| ==> !ls[i].Mark? }

  lemma {:induction false} SaveNoMarks(fn: Fn, n: nat)
    ensures NoMarks(SaveLines(fn, n)) && NoMarks(RestoreLines(fn, n))
  {
    if n > 0 {
      SaveNoMarks(fn, n - 1);
    }
  }

  lemma {:induction false} ArgNoMarks(fn: Fn, em: Em, args: seq<Operand>)
    ensures NoMarks(ArgLines(fn, em, args).0)
  {
    if args != [] {
      ArgNoMarks(fn, em, args[..|args| - 1]);
    }
  }

  lemma BinaryNoMarks(fn: Fn, em: Em, op: BinOp, a: Reg, b: Reg)
    ensures NoMarks(BinaryLines(fn, em, op, a, b))
  {
  }

  lemma OperandNoMarks(fn: Fn, em: Em, k: nat, op: Operand, s: Slot)
    ensures NoMarks(Fetch(fn, em, k, op).lines) && NoMarks(Locate(fn, em, k, s).lines)
  {
  }

  lemma InstNoMarks(fn: Fn, em: Em, i: Inst)
    ensures NoMarks(InstLines(fn, em, i).0)
  {
    hide Fetch, Locate, BinaryLines, SaveLines, RestoreLines, ArgLines;
    match i
    case Alloc(_) =>
    case Load(_, src) => OperandNoMarks(fn, em, 0, Imm(0), src);
    case Store(op, dest) =>
      OperandNoMarks(fn, em, 0, op, dest);
      OperandNoMarks(fn, Fetch(fn, em, 0, op).em, 1, op, dest);
    case Binary(_, op, l, r) =>
      var o := Fetch(fn, em, 0, l);
      OperandNoMarks(fn, em, 0, l, Temp(0));
      OperandNoMarks(fn, o.em, 1, r, Temp(0));
      BinaryNoMarks(fn, em, op, o.reg, Fetch(fn, o.em, 1, r).reg);
    case Call(_, f, args) =>
      ArgNoMarks(fn, em, args);
      SaveNoMarks(fn, Min(em.out, R_MAX));
    case Branch(cond, _, _) => OperandNoMarks(fn, em, 0, cond, Temp(0));
    case Jump(_) =>
    case Return(None) =>
    case Return(Some(op)) => OperandNoMarks(fn, em, 0, op, Temp(0));
  }

  lemma {:induction false} InstsNoMarks(fn: Fn, em: Em, insts: seq<Inst>)
    ensures NoMarks(InstsLines(fn, em, insts).0)
    decreases |insts|
  {
    if insts != [] {
      InstNoMarks(fn, em, insts[0]);
      InstsNoMarks(fn, InstLines(fn, em, insts[0]).1, insts[1..]);
    }
  }

  /** The labels of a function are its own. */
  predicate MarksOf(ls: seq<Line>, f: nat, entry: bool)
  {
    forall i :: 0 <= i < |ls| && ls[i].Mark? ==> ls[i].l.f == f && (ls[i].l.FuncLabel? ==> entry)
  }

  lemma {:induction false} BlocksMarks(fn: Fn, stacks: Stacks, g: Graph, bbs: seq<nat>)
    ensures MarksOf(BlocksLines(fn, stacks, g, bbs).0, fn.f, false)
    decreases |bbs|
  {
    if bbs != [] {
      InstsNoMarks(fn, Fresh(stacks), BlockAt(g, bbs[0]));
      BlocksMarks(fn, BlockLines(fn, stacks, g, bbs[0]).1, g, bbs[1..]);
    }
  }

  lemma FuncMarks(f: nat, fn: Func)
    ensures MarksOf(FuncLines(f, fn), f, true)
  {
    BlocksMarks(FnOf(f, fn), VarsOf(f, fn).stacks, fn.blocks, fn.bbs);
  }

  /** The first line with a label is where the label is found. */
  lemma {:induction false} FindFirst(code: seq<Line>, pre: seq<Line>, l: Label, post: seq<Line>)
    requires code == pre + [Mark(l)] + post && NoMark(pre, l)
    ensures Riscv.Find(code, l) == |pre|
  {
    assert code[|pre|] == Mark(l);
    assert forall i :: 0 <= i < |pre| ==> code[i] == pre[i];
  }

  // ----- the tables -----

  predicate StoresArg(i: Inst) { i.Store? && i.value.ArgRef? }

  /** What printing an instruction does to the counters. */
  lemma InstEm(fn: Fn, em: Em, i: Inst)
    ensures var em1 := InstLines(fn, em, i).1;
            && em1.out == em.out + (if IntTyped(i) then 1 else 0)
            && (!StoresArg(i) ==> em1.stacks == em.stacks)
  {
    if i.Call? {
      ArgLinesEm(fn, em, i.args);
    }
    if i.Store? && !i.value.ArgRef? {
      FetchEm(fn, em, 0, i.value);
    }
    if i.Branch? {
      FetchEm(fn, em, 0, i.cond);
    }
  }

  lemma FetchEm(fn: Fn, em: Em, k: nat, op: Operand)
    ensures var e := Fetch(fn, em, k, op).em; e.stacks == em.stacks && e.out == em.out && e.outs == em.outs
  {
  }

  lemma {:induction false} InstsStacks(fn: Fn, em: Em, insts: seq<Inst>)
    requires forall i :: 0 <= i < |insts| ==> !StoresArg(insts[i])
    ensures InstsLines(fn, em, insts).1.stacks == em.stacks
    decreases |insts|
  {
    if insts != [] {
      InstEm(fn, em, insts[0]);
      InstsStacks(fn, InstLines(fn, em, insts[0]).1, insts[1..]);
    }
  }

  /** Where block b is printed first, among blocks that store no arguments. */
  lemma {:induction false} BlockPlace(fn: Fn, stacks: Stacks, g: Graph, bbs: seq<nat>, b: nat)
    returns (pre: seq<Line>, post: seq<Line>)
    requires b in bbs
    requires forall c, i :: c in bbs && 0 <= i < |BlockAt(g, c)| ==> !StoresArg(BlockAt(g, c)[i])
    ensures BlocksLines(fn, stacks, g, bbs).0 == pre + BlockLines(fn, stacks, g, b).0 + post
    ensures NoMark(pre, BlockLabel(fn.f, b))
    decreases |bbs|
  {
    var ls := BlockLines(fn, stacks, g, bbs[0]).0;
    InstsStacks(fn, Fresh(stacks), BlockAt(g, bbs[0]));
    hide BlockLines;
    if b == bbs[0] {
      pre, post := [], BlocksLines(fn, stacks, g, bbs[1..]).0;
      Front(ls, post);
    } else {
      var pre1;
      pre1, post := BlockPlace(fn, stacks, g, bbs[1..], b);
      pre := ls + pre1;
      Group4(ls, pre1, BlockLines(fn, stacks, g, b).0, post);
      BlockNoMark(fn, stacks, g, bbs[0], b);
    }
  }

  lemma BlockNoMark(fn: Fn, stacks: Stacks, g: Graph, c: nat, b: nat)
    requires b != c
    ensures NoMark(BlockLines(fn, stacks, g, c).0, BlockLabel(fn.f, b))
  {
    InstsNoMarks(fn, Fresh(stacks), BlockAt(g, c));
  }

  lemma {:induction false} InstsAppend(fn: Fn, em: Em, xs: seq<Inst>, ys: seq<Inst>)
    ensures var (ls, em1) := InstsLines(fn, em, xs);
            var (ks, em2) := InstsLines(fn, em1, ys);
            InstsLines(fn, em, xs + ys) == (ls + ks, em2)
    decreases |xs|
  {
    if xs == [] {
      assert xs + ys == ys;
      assert [] + InstsLines(fn, em, ys).0 == InstsLines(fn, em, ys).0;
    } else {
      assert (xs + ys)[1..] == xs[1..] + ys;
      var (ls, em1) := InstLines(fn, em, xs[0]);
      InstsAppend(fn, em1, xs[1..], ys);
      var (rest, em2) := InstsLines(fn, em1, xs[1..]);
      var (ks, em3) := InstsLines(fn, em2, ys);
      assert ls + (rest + ks) == (ls + rest) + ks;
    }
  }

  // ----- the counts -----

  lemma {:induction false} CountsHead(insts: seq<Inst>)
    requires insts != []
    ensures CountVals(insts) == (if IntTyped(insts[0]) then 1 else 0) + CountVals(insts[1..])
    ensures CountArgs(insts) == (if insts[0].Call? then |insts[0].args| else 0) + CountArgs(insts[1..])
    decreases |insts|
  {
    var n := |insts| - 1;
    if n > 0 {
      CountsHead(insts[..n]);
      assert insts[..n][1..] == insts[1..][..n - 1];
      assert insts[1..][|insts[1..]| - 1] == insts[n];
    } else {
      assert insts[..n] == [] && insts[1..] == [];
    }
  }

  lemma {:induction false} MaxOverBounds(count: seq<Inst> -> nat, g: Graph, bbs: seq<nat>, b: nat)
    requires b in bbs
    ensures count(BlockAt(g, b)) <= MaxOver(count, g, bbs)
    decreases |bbs|
  {
    var n := |bbs| - 1;
    if b != bbs[n] {
      assert b in bbs[..n];
      MaxOverBounds(count, g, bbs[..n], b);
    }
  }

  // ----- the slots registered -----

  /** Each slot registered is a local's word, and no two slots share one. */
  ghost predicate VarsOk(fn: Fn, v: Vars)
  {
    && (forall s :: s in v.stacks ==> exists k: nat :: k < v.varCount && v.stacks[s] == fn.VarSlot(k))
    && (forall s, t :: s in v.stacks && t in v.stacks && s != t ==> v.stacks[s] != v.stacks[t])
  }

  lemma {:induction false} CountVarsOk(fn: Fn, params: nat, insts: seq<Inst>)
    ensures VarsOk(fn, CountVars(fn, params, insts))
    ensures forall s :: s in CountVars(fn, params, insts).stacks ==> Allocates(insts, s)
  {
    if insts != [] {
      var n := |insts| - 1;
      CountVarsOk(fn, params, insts[..n]);
      var v, w := CountVars(fn, params, insts[..n]), CountVars(fn, params, insts);
      forall s | s in w.stacks
        ensures Allocates(insts, s) && exists k: nat :: k < w.varCount && w.stacks[s] == fn.VarSlot(k)
      {
        if s in v.stacks && w.stacks[s] == v.stacks[s] {
          var i :| 0 <= i < n && AllocOf(insts[..n][i], s);
          assert AllocOf(insts[i], s);
        } else {
          assert AllocOf(insts[n], s) && w.stacks[s] == fn.VarSlot(v.varCount);
        }
      }
      forall s, t | s in w.stacks && t in w.stacks && s != t ensures w.stacks[s] != w.stacks[t] {
        if insts[n].Alloc? && (s == insts[n].slot || t == insts[n].slot) && w.varCount > v.varCount {
          var o := if s == insts[n].slot then t else s;
          var k: nat :| k < v.varCount && v.stacks[o] == fn.VarSlot(k);
        }
      }
    }
  }

  predicate Distinct(ps: seq<nat>) { forall i, j :: 0 <= i < j < |ps| ==> ps[i] != ps[j] }

  function ParamSlot(ps: seq<nat>, i: nat): Slot
    requires i < |ps|
  {
    Of(Local(ps[i]))
  }

  /** The parameters' allocs come first: those passed in registers take the first locals, the others none. */
  lemma {:induction false} ParamsCounted(fn: Fn, params: nat, ps: seq<nat>)
    requires |ps| <= params && Distinct(ps)
    ensures var v := CountVars(fn, params, Lowering.ParamInsts(ps));
            && v.varCount == Min(|ps|, A_MAX) && v.parSpill == |ps| - Min(|ps|, A_MAX)
            && (forall i: nat :: i < |ps| && i < A_MAX ==>
                ParamSlot(ps, i) in v.stacks && v.stacks[ParamSlot(ps, i)] == fn.VarSlot(i))
  {
    if ps != [] {
      var n := |ps| - 1;
      var qs := ps[..n];
      ParamsCounted(fn, params, qs);
      var insts := Lowering.ParamInsts(ps);
      var m := |Lowering.ParamInsts(qs)|;
      var al, st := Alloc(ParamSlot(ps, n)), Inst.Store(ArgRef(n), ParamSlot(ps, n));
      assert insts == Lowering.ParamInsts(qs) + [al, st];
      assert insts[..m + 1] == Lowering.ParamInsts(qs) + [al] && insts[..m + 1][..m] == Lowering.ParamInsts(qs);
      assert insts[m] == al && insts[m + 1] == st && |insts| == m + 2;
      var v := CountVars(fn, params, Lowering.ParamInsts(qs));
      assert CountVars(fn, params, insts[..m + 1]) == CountVar(fn, params, al, v);
      assert CountVars(fn, params, insts) == CountVar(fn, params, al, v);
      forall i: nat | i < |ps| && i < A_MAX
        ensures var w := CountVar(fn, params, al, v);
                ParamSlot(ps, i) in w.stacks && w.stacks[ParamSlot(ps, i)] == fn.VarSlot(i)
      {
        if i < n {
          assert ParamSlot(qs, i) == ParamSlot(ps, i) != al.slot;
        }
      }
    }
  }

  /** Later allocs of other slots leave the registered ones alone, and each is registered. */
  lemma {:induction false} LaterCounted(fn: Fn, params: nat, xs: seq<Inst>, ys: seq<Inst>)
    requires var v := CountVars(fn, params, xs); v.varCount + v.parSpill >= params
    ensures var v, w := CountVars(fn, params, xs), CountVars(fn, params, xs + ys);
            && w.varCount >= v.varCount && w.varCount + w.parSpill >= params
            && (forall s :: s in v.stacks && !Allocates(ys, s) ==> s in w.stacks && w.stacks[s] == v.stacks[s])
            && (forall s :: Allocates(ys, s) ==> s in w.stacks)
  {
    if ys == [] {
      assert xs + ys == xs;
    } else {
      hide Allocates, AllocOf;
      var n := |ys| - 1;
      LaterCounted(fn, params, xs, ys[..n]);
      assert (xs + ys)[..|xs| + n] == xs + ys[..n] && (xs + ys)[|xs| + n] == ys[n];
      AllocatesLast(ys);
      LastCounted(fn, params, ys[n], CountVars(fn, params, xs + ys[..n]));
    }
  }

  lemma LastCounted(fn: Fn, params: nat, i: Inst, v: Vars)
    requires v.varCount + v.parSpill >= params
    ensures var w := CountVar(fn, params, i, v);
            && w.varCount >= v.varCount && w.parSpill == v.parSpill
            && (forall s :: AllocOf(i, s) ==> s in w.stacks)
            && (forall s :: s in v.stacks && !AllocOf(i, s) ==> s in w.stacks && w.stacks[s] == v.stacks[s])
  {
  }

  lemma AllocatesLast(ys: seq<Inst>)
    requires ys != []
    ensures forall s :: Allocates(ys, s) <==> Allocates(ys[..|ys| - 1], s) || AllocOf(ys[|ys| - 1], s)
  {
    var n := |ys| - 1;
    forall s ensures Allocates(ys, s) <==> Allocates(ys[..n], s) || AllocOf(ys[n], s) {
      if Allocates(ys, s) {
        var i :| 0 <= i < |ys| && AllocOf(ys[i], s);
        if i < n { assert AllocOf(ys[..n][i], s); }
      }
      if Allocates(ys[..n], s) {
        var i :| 0 <= i < n && AllocOf(ys[..n][i], s);
        assert AllocOf(ys[i], s);
      }
    }
  }

  /** The slots registered once the parameters' stores are printed: a stacked parameter lives where the
      caller put it. */
  function ParamStacks(fn: Fn, stacks: Stacks, ps: seq<nat>): Stacks
  {
    if ps == [] then stacks
    else
      var n := |ps| - 1;
      var s := ParamStacks(fn, stacks, ps[..n]);
      if n < A_MAX then s else s[ParamSlot(ps, n) := 4 * (n - A_MAX) + fn.Size()]
  }

  function ParamLines(fn: Fn, ps: seq<nat>): seq<Line>
  {
    if ps == [] then []
    else
      var n := |ps| - 1;
      ParamLines(fn, ps[..n]) + (if n < A_MAX then [Sw(A(n), fn.VarSlot(n), Sp)] else [])
  }

  lemma TwoInsts(fn: Fn, em: Em, i: Inst, j: Inst)
    ensures var (ls, em1) := InstLines(fn, em, i);
            var (ks, em2) := InstLines(fn, em1, j);
            InstsLines(fn, em, [i, j]) == (ls + ks, em2)
  {
    var (ls, em1) := InstLines(fn, em, i);
    var (ks, em2) := InstLines(fn, em1, j);
    assert [i, j][1..] == [j] && [j][1..] == [];
    assert InstsLines(fn, em2, []) == ([], em2) && ks + [] == ks;
    assert InstsLines(fn, em1, [j]) == (ks, em2);
  }

  lemma {:induction false} ParamsPrinted(fn: Fn, stacks: Stacks, ps: seq<nat>)
    ensures InstsLines(fn, Fresh(stacks), Lowering.ParamInsts(ps)) ==
            (ParamLines(fn, ps), Fresh(ParamStacks(fn, stacks, ps)))
  {
    if ps != [] {
      var n := |ps| - 1;
      ParamsPrinted(fn, stacks, ps[..n]);
      var em := Fresh(ParamStacks(fn, stacks, ps[..n]));
      var pair := [Alloc(ParamSlot(ps, n)), Inst.Store(ArgRef(n), ParamSlot(ps, n))];
      InstsAppend(fn, Fresh(stacks), Lowering.ParamInsts(ps[..n]), pair);
      TwoInsts(fn, em, pair[0], pair[1]);
      var last := if n < A_MAX then [Sw(A(n), fn.VarSlot(n), Sp)] else [];
      assert InstLines(fn, em, pair[1]) == (last, Fresh(ParamStacks(fn, stacks, ps))) && [] + last == last;
    } else {
      assert InstsLines(fn, Fresh(stacks), []) == ([], Fresh(stacks));
    }
  }

  /** A parameter passed on the stack. */
  predicate Stacked(ps: seq<nat>, p: Slot) { exists i: nat :: A_MAX <= i < |ps| && p == ParamSlot(ps, i) }

  lemma {:induction false} ParamStacksMeans(fn: Fn, stacks: Stacks, ps: seq<nat>)
    requires Distinct(ps)
    ensures var t := ParamStacks(fn, stacks, ps);
            && (forall i: nat :: A_MAX <= i < |ps| ==>
                ParamSlot(ps, i) in t && t[ParamSlot(ps, i)] == 4 * (i - A_MAX) + fn.Size())
            && (forall s :: s in t <==> s in stacks || Stacked(ps, s))
            && (forall s :: s in t && !Stacked(ps, s) ==> s in stacks && t[s] == stacks[s])
  {
    if ps != [] {
      var n := |ps| - 1;
      ParamStacksMeans(fn, stacks, ps[..n]);
      StackedLast(ps);
      SlotsDiffer(ps, n);
      hide Distinct, Stacked;
    }
  }

  lemma StackedLast(ps: seq<nat>)
    requires ps != []
    ensures var n := |ps| - 1;
            forall s :: Stacked(ps, s) <==> Stacked(ps[..n], s) || (n >= A_MAX && s == ParamSlot(ps, n))
  {
    var n := |ps| - 1;
    forall s | Stacked(ps[..n], s) ensures Stacked(ps, s) {
      var i: nat :| A_MAX <= i < n && s == ParamSlot(ps[..n], i);
      assert s == ParamSlot(ps, i);
    }
    forall s | Stacked(ps, s) ensures Stacked(ps[..n], s) || s == ParamSlot(ps, n) {
      var i: nat :| A_MAX <= i < |ps| && s == ParamSlot(ps, i);
      if i < n { assert s == ParamSlot(ps[..n], i); }
    }
  }

  lemma SlotsDiffer(ps: seq<nat>, n: nat)
    requires Distinct(ps) && n == |ps| - 1
    ensures forall i: nat :: i < n ==> ParamSlot(ps[..n], i) == ParamSlot(ps, i) != ParamSlot(ps, n)
  {
  }
}
