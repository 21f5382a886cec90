/**
 * Entering a function: where its code is, its frame, and its parameters.
 */
module CodegenEntry {
  import opened Words
  import opened Source
  import opened Koopa
  import opened Riscv
  import opened Codegen
  import opened CodegenFrame
  import opened CodegenValues
  import opened CodegenInsts
  import opened CodegenCalls
  import opened CodegenLayout
  import opened CodegenRun
  import opened Lists
  import Programs
  import Lowering

  // ----- where the code is -----

  predicate NoMarkOf(ls: seq<Line>, f: nat) { forall i :: 0 <= i < |ls| && ls[i].Mark? ==> ls[i].l.f != f }

  /** The code of a function, after the code of others. */
  lemma {:induction false} FuncPlace(fs: seq<(nat, Func)>, f: nat) returns (pre: seq<Line>, post: seq<Line>)
    requires Programs.Find(fs, f).Some?
    ensures ProgramLines(fs) == pre + FuncLines(f, Programs.Find(fs, f).value) + post
    ensures NoMarkOf(pre, f)
  {
    if fs[0].0 == f {
      pre, post := [], ProgramLines(fs[1..]);
      assert [] + FuncLines(f, fs[0].1) + post == FuncLines(f, fs[0].1) + post;
    } else {
      var pre1;
      pre1, post := FuncPlace(fs[1..], f);
      pre := FuncLines(fs[0].0, fs[0].1) + pre1;
      FuncMarks(fs[0].0, fs[0].1);
      var ls := FuncLines(f, Programs.Find(fs[1..], f).value);
      assert FuncLines(fs[0].0, fs[0].1) + (pre1 + ls + post) == pre + ls + post;
    }
  }

  lemma {:induction false} NoFuncLabel(fs: seq<(nat, Func)>, f: nat)
    requires Programs.Find(fs, f).None?
    ensures NoMarkOf(ProgramLines(fs), f)
  {
    if fs != [] {
      FuncMarks(fs[0].0, fs[0].1);
      NoFuncLabel(fs[1..], f);
    }
  }

  lemma CodePiece(code: seq<Line>, pre: seq<Line>, ls: seq<Line>, post: seq<Line>)
    requires code == pre + ls + post
    ensures CodeAt(code, |pre|, ls)
  {
  }

  /** The lines of a function's entry: its label, the prologue, the entry block's label, the parameters' stores,
      and the rest of the entry block. */
  function EntryLines(f: nat, fn: Func, ps: seq<nat>): seq<Line>
    requires FuncOk(f, fn, ps)
  {
    [Mark(FuncLabel(f))] + Prologue(FnOf(f, fn)) + [Mark(BlockLabel(f, fn.bbs[0]))] + ParamLines(FnOf(f, fn), ps)
    + InstsLines(FnOf(f, fn), Fresh(Slots(f, fn, ps)), AfterParams(fn, |ps|)).0
  }

  /** What FuncOk says of the parameters. */
  lemma FuncParams(f: nat, fn: Func, ps: seq<nat>)
    requires FuncOk(f, fn, ps)
    ensures fn.bbs != [] && |ps| == fn.params && Distinct(ps) && 2 * |ps| <= |BlockAt(fn.blocks, fn.bbs[0])|
    ensures BlockAt(fn.blocks, fn.bbs[0]) == Lowering.ParamInsts(ps) + AfterParams(fn, |ps|)
    ensures forall i :: 0 <= i < |AfterParams(fn, |ps|)| ==> !StoresArg(AfterParams(fn, |ps|)[i])
  {
    hide AllocsApart, JumpsInside, FrameSafe, BlockOk, FnOf, Slots;
    BlockOkStores(FnOf(f, fn), Fresh(Slots(f, fn, ps)), map[], AfterParams(fn, |ps|));
    var e := BlockAt(fn.blocks, fn.bbs[0]);
    assert e == e[..2 * |ps|] + e[2 * |ps|..];
  }

  /** No alloc but the parameters' own takes their slots, and none takes a global's. */
  lemma FuncAllocs(f: nat, fn: Func, ps: seq<nat>)
    requires FuncOk(f, fn, ps)
    ensures fn.bbs != [] && |ps| == fn.params && 2 * |ps| <= |BlockAt(fn.blocks, fn.bbs[0])|
    ensures forall i: nat :: i < |ps| ==>
              !Allocates(AfterParams(fn, |ps|) + AllInsts(fn.blocks, fn.bbs[1..]), ParamSlot(ps, i))
    ensures forall g :: !Allocates(AllInsts(fn.blocks, fn.bbs), Of(Global(g)))
  {
  }

  /** The entry block: the parameters' stores, then the rest, for which the parameters' slots are known. */
  lemma EntryBlockPrinted(f: nat, fn: Func, ps: seq<nat>)
    requires FuncOk(f, fn, ps)
    ensures var c := FnOf(f, fn);
            BlockLines(c, VarsOf(f, fn).stacks, fn.blocks, fn.bbs[0]) ==
            ([Mark(BlockLabel(f, fn.bbs[0]))] + ParamLines(c, ps)
             + InstsLines(c, Fresh(Slots(f, fn, ps)), AfterParams(fn, |ps|)).0, Slots(f, fn, ps))
  {
    hide FuncOk, InstsLines, ParamLines, ParamStacks, FnOf, VarsOf;
    FuncParams(f, fn, ps);
    var c, v := FnOf(f, fn), VarsOf(f, fn).stacks;
    var rest := AfterParams(fn, |ps|);
    InstsAppend(c, Fresh(v), Lowering.ParamInsts(ps), rest);
    ParamsPrinted(c, v, ps);
    InstsStacks(c, Fresh(Slots(f, fn, ps)), rest);
    var xs, ys := ParamLines(c, ps), InstsLines(c, Fresh(Slots(f, fn, ps)), rest).0;
    assert [Mark(BlockLabel(f, fn.bbs[0]))] + (xs + ys) == [Mark(BlockLabel(f, fn.bbs[0]))] + xs + ys;
    assert c.f == f by { FnOfF(f, fn); }
  }

  lemma FnOfF(f: nat, fn: Func)
    ensures FnOf(f, fn).f == f
  {
  }

  /** The entry comes first, and the other blocks after it see the parameters' slots. */
  lemma EntryPrinted(f: nat, fn: Func, ps: seq<nat>)
    requires FuncOk(f, fn, ps)
    ensures FuncLines(f, fn) ==
            EntryLines(f, fn, ps) + BlocksLines(FnOf(f, fn), Slots(f, fn, ps), fn.blocks, fn.bbs[1..]).0
  {
    EntryBlockPrinted(f, fn, ps);
    assert fn.bbs != [];
    hide FuncOk, InstsLines, ParamLines, BlockLines, FnOf, VarsOf, Slots, Prologue;
    var c, s := FnOf(f, fn), Slots(f, fn, ps);
    var first := BlockLines(c, VarsOf(f, fn).stacks, fn.blocks, fn.bbs[0]).0;
    var others := BlocksLines(c, s, fn.blocks, fn.bbs[1..]).0;
    assert BlocksLines(c, VarsOf(f, fn).stacks, fn.blocks, fn.bbs).0 == first + others;
    Group5([Mark(FuncLabel(f))] + Prologue(c), [Mark(BlockLabel(f, fn.bbs[0]))], ParamLines(c, ps),
            InstsLines(c, Fresh(s), AfterParams(fn, |ps|)).0, others);
  }

  lemma NoMarkMore(a: seq<Line>, b: seq<Line>, c: seq<Line>, l: Label)
    requires NoMark(a, l) && NoMark(b, l) && NoMark(c, l)
    ensures NoMark(a + b + c, l)
  {
  }

  /** A block whose operands are all usable stores no arguments. */
  lemma {:induction false} BlockOkStores(fn: Fn, em: Em, live: Live, insts: seq<Inst>)
    requires BlockOk(fn, em, live, insts)
    ensures forall i :: 0 <= i < |insts| ==> !StoresArg(insts[i])
    decreases |insts|
  {
    if insts != [] {
      NoArgStore(live, em.stacks, insts[0]);
      BlockOkStores(fn, InstLines(fn, em, insts[0]).1, LiveAfter(fn, live, em.out, insts[0]), insts[1..]);
      assert forall i :: 0 < i < |insts| ==> insts[i] == insts[1..][i - 1];
    }
  }

  lemma EntryFound(fs: seq<(nat, Func)>, f: nat, ps: seq<nat>)
    requires Programs.Find(fs, f).Some? && FuncOk(f, Programs.Find(fs, f).value, ps)
    ensures var p := Riscv.Find(ProgramLines(fs), FuncLabel(f));
            CodeAt(ProgramLines(fs), p, EntryLines(f, Programs.Find(fs, f).value, ps))
  {
    var fn := Programs.Find(fs, f).value;
    var pre, post := FuncPlace(fs, f);
    EntryPrinted(f, fn, ps);
    EntryStarts(f, fn, ps);
    hide FuncOk, EntryLines, BlocksLines, FuncLines, FnOf, VarsOf, Slots, Riscv.Find;
    OthersMark(pre, f, FuncLabel(f));
    var e, others := EntryLines(f, fn, ps), BlocksLines(FnOf(f, fn), Slots(f, fn, ps), fn.blocks, fn.bbs[1..]).0;
    Pair4(pre, e, others, post);
    FoundAt(ProgramLines(fs), pre, FuncLabel(f), e, others + post);
  }

  lemma EntryStarts(f: nat, fn: Func, ps: seq<nat>)
    requires FuncOk(f, fn, ps)
    ensures EntryLines(f, fn, ps) != [] && EntryLines(f, fn, ps)[0] == Mark(FuncLabel(f))
  {
  }

  lemma OthersMark(pre: seq<Line>, f: nat, l: Label)
    requires NoMarkOf(pre, f) && l.f == f
    ensures NoMark(pre, l)
  {
  }

  /** Lines that start with a label are found at it, if it is nowhere before. */
  lemma FoundAt(code: seq<Line>, pre: seq<Line>, l: Label, ls: seq<Line>, post: seq<Line>)
    requires code == pre + ls + post && NoMark(pre, l) && ls != [] && ls[0] == Mark(l)
    ensures Riscv.Find(code, l) == |pre| && CodeAt(code, |pre|, ls)
  {
    assert code == pre + [Mark(l)] + (ls[1..] + post);
    FindFirst(code, pre, l, ls[1..] + post);
    CodePiece(code, pre, ls, post);
  }

  /** Any other block is found at its label, printed with the parameters' slots known. */
  lemma BlockFound(fs: seq<(nat, Func)>, f: nat, ps: seq<nat>, b: nat)
    requires Programs.Find(fs, f).Some? && FuncOk(f, Programs.Find(fs, f).value, ps)
    requires b in Programs.Find(fs, f).value.bbs[1..]
    ensures var fn := Programs.Find(fs, f).value;
            var p := Riscv.Find(ProgramLines(fs), BlockLabel(f, b));
            CodeAt(ProgramLines(fs), p, BlockLines(FnOf(f, fn), Slots(f, fn, ps), fn.blocks, b).0)
  {
    var fn := Programs.Find(fs, f).value;
    var c, s := FnOf(f, fn), Slots(f, fn, ps);
    OtherBlockStores(f, fn, ps);
    assert b != fn.bbs[0];
    hide FuncOk, EntryLines, BlocksLines, BlockLines, FuncLines, FnOf, VarsOf, Slots;
    FnOfF(f, fn);
    var pre1, post1 := BlockPlace(c, s, fn.blocks, fn.bbs[1..], b);
    var pre, post := FuncPlace(fs, f);
    EntryPrinted(f, fn, ps);
    EntryMarks(f, fn, ps, b);
    OthersMark(pre, f, BlockLabel(f, b));
    BlockStarts(c, s, fn.blocks, b);
    var ls, e := BlockLines(c, s, fn.blocks, b).0, EntryLines(f, fn, ps);
    Group6(pre, e, pre1, ls, post1, post);
    NoMarkMore(pre, e, pre1, BlockLabel(f, b));
    FoundAt(ProgramLines(fs), pre + e + pre1, BlockLabel(f, b), ls, post1 + post);
  }

  lemma BlockStarts(fn: Fn, s: Stacks, g: Graph, b: nat)
    ensures var ls := BlockLines(fn, s, g, b).0; ls != [] && ls[0] == Mark(BlockLabel(fn.f, b))
  {
  }

  lemma OtherBlockStores(f: nat, fn: Func, ps: seq<nat>)
    requires FuncOk(f, fn, ps)
    ensures forall d, i :: d in fn.bbs[1..] && 0 <= i < |BlockAt(fn.blocks, d)| ==> !StoresArg(BlockAt(fn.blocks, d)[i])
  {
    forall d | d in fn.bbs[1..] ensures forall i :: 0 <= i < |BlockAt(fn.blocks, d)| ==>
      !StoresArg(BlockAt(fn.blocks, d)[i]) {
      BlockOkStores(FnOf(f, fn), Fresh(Slots(f, fn, ps)), map[], BlockAt(fn.blocks, d));
    }
  }

  lemma EntryMarks(f: nat, fn: Func, ps: seq<nat>, b: nat)
    requires FuncOk(f, fn, ps) && b != fn.bbs[0]
    ensures NoMark(EntryLines(f, fn, ps), BlockLabel(f, b))
  {
    hide FuncOk, FnOf, VarsOf, Slots, InstsLines, ParamLines;
    FuncParams(f, fn, ps);
    assert FnOf(f, fn).f == f by { FnOfF(f, fn); }
    InstsNoMarks(FnOf(f, fn), Fresh(Slots(f, fn, ps)), AfterParams(fn, |ps|));
    ParamNoMarks(FnOf(f, fn), ps);
  }

  lemma {:induction false} ParamNoMarks(fn: Fn, ps: seq<nat>)
    ensures NoMarks(ParamLines(fn, ps)) && AllStraight(ParamLines(fn, ps))
  {
    if ps != [] {
      ParamNoMarks(fn, ps[..|ps| - 1]);
    }
  }

  // ----- the frame and the parameters -----

  /** Memory changed only in the locals of the first n parameters. */
  ghost predicate OnlyParams(a: Act, n: nat, m: Machine, t: Machine)
  {
    forall x :: !(exists i: nat :: i < n && i < A_MAX && x == a.base + a.fn.VarSlot(i)) ==> Peek(t, x) == Peek(m, x)
  }

  /** After the first n parameters' stores, those passed in registers are among the locals; nothing else changed. */
  lemma {:induction false} ParamsRun(a: Act, ps: seq<nat>, m: Machine) returns (t: Machine)
    requires Get(m, Sp) == a.base && Aligned(a.base)
    ensures Runs(a.env, ParamLines(a.fn, ps), m, t) && t == m.(mem := t.mem)
    ensures forall i: nat :: i < |ps| && i < A_MAX ==> Peek(t, a.base + a.fn.VarSlot(i)) == Get(m, A(i))
    ensures OnlyParams(a, |ps|, m, t)
  {
    hide Runs;
    if ps == [] {
      t := m;
      RunsNone(a.env, m);
    } else {
      var n := |ps| - 1;
      var t1 := ParamsRun(a, ps[..n], m);
      if n < A_MAX {
        t := Poke(t1, a.base + a.fn.VarSlot(n), Get(m, A(n)));
        AlignedSum(a.base, a.fn.VarSlot(n));
        RunsOne(a.env, Sw(A(n), a.fn.VarSlot(n), Sp), t1);
        RunsThen(a.env, ParamLines(a.fn, ps[..n]), [Sw(A(n), a.fn.VarSlot(n), Sp)], m, t1, t);
      } else {
        t := t1;
        assert ParamLines(a.fn, ps[..n]) + [] == ParamLines(a.fn, ps[..n]);
      }
    }
  }

  /** With distinct parameters, each is bound to its argument and nothing else is bound. */
  lemma {:induction false} BoundParams(ps: seq<nat>, args: seq<Word>, x: nat)
    requires |ps| == |args| && Distinct(ps) && x in BindParams(ps, args)
    ensures exists i: nat :: i < |ps| && ps[i] == x && BindParams(ps, args)[x] == args[i]
  {
    var n := |ps| - 1;
    if x != ps[n] {
      BoundParams(ps[..n], args[..n], x);
      var i: nat :| i < n && ps[..n][i] == x && BindParams(ps[..n], args[..n])[x] == args[..n][i];
      assert ps[i] == x && args[i] == BindParams(ps, args)[x];
    }
  }

  lemma {:induction false} AllInstsHead(g: Graph, bbs: seq<nat>)
    requires bbs != []
    ensures AllInsts(g, bbs) == BlockAt(g, bbs[0]) + AllInsts(g, bbs[1..])
    decreases |bbs|
  {
    var n := |bbs| - 1;
    if n > 0 {
      AllInstsHead(g, bbs[..n]);
      assert bbs[..n][1..] == bbs[1..][..n - 1] && bbs[1..][n - 1] == bbs[n];
      var x, y, z := BlockAt(g, bbs[0]), AllInsts(g, bbs[..n][1..]), BlockAt(g, bbs[n]);
      assert (x + y) + z == x + (y + z);
    } else {
      assert bbs[..0] == [] && bbs[1..] == [];
    }
  }

  /** The slot a parameter passed in a register is stored to is the one its alloc was given, and the slot of
      any other is the word the caller put it in. */
  lemma ParamSlots(f: nat, fn: Func, ps: seq<nat>, i: nat)
    requires FuncOk(f, fn, ps) && i < |ps|
    ensures ParamSlot(ps, i) in Slots(f, fn, ps)
    ensures Slots(f, fn, ps)[ParamSlot(ps, i)] ==
            if i < A_MAX then FnOf(f, fn).VarSlot(i) else FnOf(f, fn).Size() + 4 * (i - A_MAX)
  {
    hide FuncOk, CountVars, AllInsts, Allocates;
    FuncParams(f, fn, ps);
    FuncAllocs(f, fn, ps);
    var c := Fn(f, MaxOver(CountVals, fn.blocks, fn.bbs), MaxOver(CountArgs, fn.blocks, fn.bbs), 0);
    var rest := AfterParams(fn, |ps|) + AllInsts(fn.blocks, fn.bbs[1..]);
    AllInstsHead(fn.blocks, fn.bbs);
    assert AllInsts(fn.blocks, fn.bbs) == Lowering.ParamInsts(ps) + rest;
    ParamStacksMeans(FnOf(f, fn), VarsOf(f, fn).stacks, ps);
    ParamsCounted(c, fn.params, ps);
    LaterCounted(c, fn.params, Lowering.ParamInsts(ps), rest);
    hide ParamStacks;
    if i < A_MAX {
      assert ParamSlot(ps, i) in VarsOf(f, fn).stacks;
      assert forall j: nat :: A_MAX <= j < |ps| ==> ps[i] != ps[j];
    }
  }

  ghost predicate KindOf(fn: Fn, v: Vars, ps: seq<nat>, p: Slot, off: int)
  {
    if Stacked(ps, p) then
      exists i: nat :: A_MAX <= i < |ps| && p == ParamSlot(ps, i) && off == 4 * (i - A_MAX) + fn.Size()
    else p in v.stacks && off == v.stacks[p]
  }

  /** A slot is a local's word, or the word of a parameter passed on the stack. */
  lemma SlotKind(f: nat, fn: Func, ps: seq<nat>, p: Slot)
    requires FuncOk(f, fn, ps) && p in Slots(f, fn, ps)
    ensures var c, v := FnOf(f, fn), VarsOf(f, fn);
            !(p.Of? && p.v.Global?) && VarsOk(c, v) && KindOf(c, v, ps, p, Slots(f, fn, ps)[p])
  {
    hide FuncOk, CountVars, ParamStacks, AllInsts, Allocates;
    FuncParams(f, fn, ps);
    FuncAllocs(f, fn, ps);
    var c := Fn(f, MaxOver(CountVals, fn.blocks, fn.bbs), MaxOver(CountArgs, fn.blocks, fn.bbs), 0);
    CountVarsOk(c, fn.params, AllInsts(fn.blocks, fn.bbs));
    ParamStacksMeans(FnOf(f, fn), VarsOf(f, fn).stacks, ps);
    assert VarsOk(FnOf(f, fn), VarsOf(f, fn)) by {
      assert forall k: nat :: c.VarSlot(k) == FnOf(f, fn).VarSlot(k);
    }
    if !Stacked(ps, p) {
      assert p in VarsOf(f, fn).stacks;
      assert Allocates(AllInsts(fn.blocks, fn.bbs), p);
    }
  }

  /** The slots a function's code uses are words of their own. */
  lemma SlotsOk(a: Act, f: nat, fn: Func, ps: seq<nat>)
    requires FuncOk(f, fn, ps) && a.fn == FnOf(f, fn) && a.params == fn.params
    ensures StacksOk(a, Slots(f, fn, ps))
  {
    var v, s := VarsOf(f, fn), Slots(f, fn, ps);
    assert a.fn.varCount == v.varCount;
    hide FuncOk, FnOf, VarsOf, Slots, KindOf;
    FuncParams(f, fn, ps);
    forall p | p in s
      ensures !(p.Of? && p.v.Global?) && Aligned(s[p])
      ensures Within(WordArea(s[p]), LocalsArea(a.fn)) || Within(WordArea(s[p]), Area(a.fn.Size(), a.Above() - a.base))
    {
      SlotKind(f, fn, ps, p);
      SlotRange(a, v, ps, p, s[p]);
    }
    forall p, q | p in s && q in s && p != q ensures s[p] != s[q] {
      SlotKind(f, fn, ps, p);
      SlotKind(f, fn, ps, q);
      KindsDiffer(a.fn, v, ps, p, q, s[p], s[q]);
    }
  }

  lemma KindsDiffer(fn: Fn, v: Vars, ps: seq<nat>, p: Slot, q: Slot, x: int, y: int)
    requires VarsOk(fn, v) && fn.varCount == v.varCount && p != q
    requires KindOf(fn, v, ps, p, x) && KindOf(fn, v, ps, q, y)
    ensures x != y
  {
    FrameLayout(fn);
    if Stacked(ps, p) != Stacked(ps, q) {
      var l := if Stacked(ps, p) then q else p;
      var k: nat :| k < v.varCount && v.stacks[l] == fn.VarSlot(k);
    }
  }

  lemma SlotRange(a: Act, v: Vars, ps: seq<nat>, p: Slot, off: int)
    requires VarsOk(a.fn, v) && a.fn.varCount == v.varCount && a.params == |ps|
    requires KindOf(a.fn, v, ps, p, off)
    ensures Aligned(off)
    ensures Within(WordArea(off), LocalsArea(a.fn)) || Within(WordArea(off), Area(a.fn.Size(), a.Above() - a.base))
  {
    if Stacked(ps, p) {
      var i: nat :| A_MAX <= i < |ps| && p == ParamSlot(ps, i) && off == 4 * (i - A_MAX) + a.fn.Size();
      AboveWord(a, i);
    } else {
      var k: nat :| k < v.varCount && v.stacks[p] == a.fn.VarSlot(k);
      LocalWord(a.fn, k);
    }
  }

  lemma LocalWord(fn: Fn, k: nat)
    requires k < fn.varCount
    ensures Aligned(fn.VarSlot(k)) && Within(WordArea(fn.VarSlot(k)), LocalsArea(fn))
  {
  }

  lemma AboveWord(a: Act, i: nat)
    requires A_MAX <= i < a.params
    ensures var off := 4 * (i - A_MAX) + a.fn.Size();
            Aligned(off) && Within(WordArea(off), Area(a.fn.Size(), a.Above() - a.base))
  {
    FrameLayout(a.fn);
  }

  /** What a call of a function finds on entry: its arguments, the globals, and room above for the stack. */
  ghost predicate EntryOk(env: Env, top: int, args: seq<Word>, w: World, m: Machine)
  {
    && !m.trapped && Aligned(Get(m, Sp)) && Get(m, Sp) + ArgBytes(|args|) <= top
    && (forall i: nat :: i < |args| ==> ArgAt(m, i) == args[i])
    && m.io == w.io && forall g :: g in w.globals ==> Peek(m, env.address(g)) == w.globals[g]
  }

  ghost predicate EnvOk(env: Env, top: int)
  {
    && (forall g: nat :: Aligned(env.address(g)) && env.address(g) >= top)
    && (forall g: nat, h: nat :: g != h ==> env.address(g) != env.address(h))
  }

  /** The activation that starts at m. */
  function ActOf(f: nat, fn: Func, env: Env, top: int, m: Machine): Act
  {
    Act(FnOf(f, fn), env, fn.params, Get(m, Sp) - FnOf(f, fn).Size(), Get(m, Ra), top, m.mem)
  }

  /** The prologue lowers the stack pointer and saves the return address. */
  lemma PrologueRuns(a: Act, env: Env, m: Machine) returns (t: Machine)
    requires Get(m, Sp) == a.base + a.fn.Size() && Aligned(Get(m, Sp)) && a.env == env && Get(m, Ra) == a.ra
    ensures Runs(env, Prologue(a.fn), m, t) && Aligned(a.base)
    ensures t == Poke(Set(m, Sp, a.base), a.base + a.fn.Size() - 4, a.ra)
  {
    hide Runs, Aligned, Prologue;
    FrameAligned(a);
    var l1, l2 := AddSp(0 - a.fn.Size()), Sw(Ra, a.fn.Size() - 4, Sp);
    var t1 := Set(m, Sp, a.base);
    t := Poke(t1, a.base + a.fn.Size() - 4, a.ra);
    RunsOne(env, l1, m);
    RunsOne(env, l2, t1);
    RunsThen(env, [l1], [l2], m, t1, t);
    assert [l1] + [l2] == Prologue(a.fn) by { PrologueIs(a.fn); }
  }

  lemma PrologueIs(fn: Fn)
    ensures [AddSp(0 - fn.Size())] + [Sw(Ra, fn.Size() - 4, Sp)] == Prologue(fn)
  {
  }

  /** The frame keeps the stack pointer aligned. */
  lemma FrameAligned(a: Act)
    requires Aligned(a.base + a.fn.Size())
    ensures Aligned(a.base) && Aligned(a.base + a.fn.Size() - 4)
  {
  }

  /** After prologue and parameters' stores the machine holds the state in which the parameters are bound. */
  lemma ParamsMatch(a: Act, f: nat, fn: Func, ps: seq<nat>, args: seq<Word>, w: World, m: Machine, t1: Machine,
                    t: Machine)
    requires FuncOk(f, fn, ps) && |args| == |ps| && a == ActOf(f, fn, a.env, a.top, m)
    requires EntryOk(a.env, a.top, args, w, m) && EnvOk(a.env, a.top)
    requires t1 == Poke(Set(m, Sp, a.base), a.base + a.fn.Size() - 4, a.ra) && t == t1.(mem := t.mem)
    requires forall i: nat :: i < |ps| && i < A_MAX ==> Peek(t, a.base + a.fn.VarSlot(i)) == Get(t1, A(i))
    requires OnlyParams(a, |ps|, t1, t)
    ensures MemoryOk(a, Slots(f, fn, ps), Source.Store(BindParams(ps, args), w), map[], t) && FrameOk(a, t)
  {
    hide FuncOk, FnOf, VarsOf, Slots, FrameOk, EntryOk, EnvOk, MemoryOk, OnlyParams, AfterParams, BlockAt,
         Lowering.ParamInsts, BindParams;
    assert a.fn == FnOf(f, fn) && a.params == fn.params && a.base == Get(m, Sp) - a.fn.Size() && a.caller == m.mem;
    EnoughLocals(f, fn, ps);
    FuncSafe(f, fn, ps);
    assert Distinct(ps) by { FuncParams(f, fn, ps); }
    ParamsLow(a, ps, args, w, m, t1, t);
    EntryGlobals(a, args, w, m, t);
    ParamsHeld(a, f, fn, ps, args, w, m, t1, t);
    BoundMemory(a, Slots(f, fn, ps), ps, args, w, t);
  }

  lemma ParamsHeld(a: Act, f: nat, fn: Func, ps: seq<nat>, args: seq<Word>, w: World, m: Machine, t1: Machine,
                   t: Machine)
    requires FuncOk(f, fn, ps) && |args| == |ps| && a.fn == FnOf(f, fn) && a.base == Get(m, Sp) - a.fn.Size()
    requires EntryOk(a.env, a.top, args, w, m)
    requires t1 == Poke(Set(m, Sp, a.base), a.base + a.fn.Size() - 4, a.ra)
    requires forall i: nat :: i < |ps| && i < A_MAX ==> Peek(t, a.base + a.fn.VarSlot(i)) == Get(t1, A(i))
    requires forall x :: !(a.base <= x < a.base + a.fn.Size()) ==> Peek(t, x) == Peek(m, x)
    ensures var slots := Slots(f, fn, ps);
            && (forall p :: p in slots ==> !(p.Of? && p.v.Global?))
            && forall i: nat :: i < |ps| ==>
                 ParamSlot(ps, i) in slots && Peek(t, a.base + slots[ParamSlot(ps, i)]) == args[i]
  {
    hide FuncOk, FnOf, VarsOf, Slots, EntryOk;
    var slots := Slots(f, fn, ps);
    forall p | p in slots ensures !(p.Of? && p.v.Global?) {
      SlotKind(f, fn, ps, p);
    }
    forall i: nat | i < |ps|
      ensures ParamSlot(ps, i) in slots && Peek(t, a.base + slots[ParamSlot(ps, i)]) == args[i]
    {
      ParamSlots(f, fn, ps, i);
      ParamHeld(a, ps, args, w, i, m, t1, t);
    }
  }

  lemma EntryGlobals(a: Act, args: seq<Word>, w: World, m: Machine, t: Machine)
    requires EntryOk(a.env, a.top, args, w, m) && EnvOk(a.env, a.top) && FrameOk(a, t)
             && a.base + a.fn.Size() == Get(m, Sp)
    requires forall x :: !(a.base <= x < a.base + a.fn.Size()) ==> Peek(t, x) == Peek(m, x)
    ensures forall g :: g in w.globals ==> Peek(t, a.env.address(g)) == w.globals[g]
  {
  }

  lemma BoundMemory(a: Act, slots: Stacks, ps: seq<nat>, args: seq<Word>, w: World, t: Machine)
    requires |ps| == |args| && Distinct(ps) && t.io == w.io
    requires forall p :: p in slots ==> !(p.Of? && p.v.Global?)
    requires forall i: nat :: i < |ps| ==>
               ParamSlot(ps, i) in slots && Peek(t, a.base + slots[ParamSlot(ps, i)]) == args[i]
    requires forall g :: g in w.globals ==> Peek(t, a.env.address(g)) == w.globals[g]
    ensures MemoryOk(a, slots, Source.Store(BindParams(ps, args), w), map[], t)
  {
    hide BindParams, Peek;
    var s := Source.Store(BindParams(ps, args), w);
    forall p: Slot | SlotValue(s, map[], p).Some?
      ensures Placed(slots, p) && Peek(t, AddressOf(a, slots, p)) == SlotValue(s, map[], p).value
    {
      if p.v.Local? {
        BoundParams(ps, args, p.v.x);
        var i: nat :| i < |ps| && ps[i] == p.v.x && BindParams(ps, args)[p.v.x] == args[i];
        assert p == ParamSlot(ps, i);
      }
    }
  }

  /** The stores stay in the frame, off the return address. */
  lemma ParamsLow(a: Act, ps: seq<nat>, args: seq<Word>, w: World, m: Machine, t1: Machine, t: Machine)
    requires Min(|ps|, A_MAX) <= a.fn.varCount
    requires EntryOk(a.env, a.top, args, w, m) && |args| == |ps| == a.params
    requires a.base == Get(m, Sp) - a.fn.Size() && a.caller == m.mem && EnvOk(a.env, a.top)
    requires t1 == Poke(Set(m, Sp, a.base), a.base + a.fn.Size() - 4, a.ra) && t == t1.(mem := t.mem)
    requires OnlyParams(a, |ps|, t1, t)
    ensures forall x :: !(a.base <= x < a.base + a.fn.Size()) ==> Peek(t, x) == Peek(m, x)
    ensures FrameOk(a, t) && t.io == w.io
  {
    FrameLayout(a.fn);
    forall i: nat | i < a.fn.varCount ensures 0 <= a.fn.VarSlot(i) && a.fn.VarSlot(i) + 4 <= a.fn.Size() - 4 {
    }
    forall x | !(a.base <= x < a.base + a.fn.Size() - 4) ensures Peek(t, x) == Peek(t1, x) {
      assert !(exists i: nat :: i < |ps| && i < A_MAX && x == a.base + a.fn.VarSlot(i));
    }
    assert Peek(t, a.base + a.fn.Size() - 4) == a.ra;
  }

  /** Each argument is where its parameter's slot is. */
  lemma ParamHeld(a: Act, ps: seq<nat>, args: seq<Word>, w: World, i: nat, m: Machine, t1: Machine, t: Machine)
    requires EntryOk(a.env, a.top, args, w, m) && i < |ps| == |args| && a.base == Get(m, Sp) - a.fn.Size()
    requires t1 == Poke(Set(m, Sp, a.base), a.base + a.fn.Size() - 4, a.ra)
    requires i < A_MAX ==> Peek(t, a.base + a.fn.VarSlot(i)) == Get(t1, A(i))
    requires forall x :: !(a.base <= x < a.base + a.fn.Size()) ==> Peek(t, x) == Peek(m, x)
    ensures Peek(t, a.base + if i < A_MAX then a.fn.VarSlot(i) else a.fn.Size() + 4 * (i - A_MAX)) == args[i]
  {
    assert ArgAt(m, i) == args[i];
  }

  /** There is a local for every parameter passed in a register. */
  lemma EnoughLocals(f: nat, fn: Func, ps: seq<nat>)
    requires FuncOk(f, fn, ps)
    ensures Min(|ps|, A_MAX) <= FnOf(f, fn).varCount
  {
    if ps != [] {
      var i := Min(|ps|, A_MAX) - 1;
      ParamSlots(f, fn, ps, i);
      SlotKind(f, fn, ps, ParamSlot(ps, i));
      assert !Stacked(ps, ParamSlot(ps, i)) by {
        assert forall j: nat :: A_MAX <= j < |ps| ==> ps[j] != ps[i];
      }
      hide FuncOk, Slots;
      var k: nat :| k < VarsOf(f, fn).varCount && VarsOf(f, fn).stacks[ParamSlot(ps, i)] == FnOf(f, fn).VarSlot(k);
      assert FnOf(f, fn).VarSlot(k) == FnOf(f, fn).VarSlot(i);
    }
  }

  /** The run of the IR function starts, its parameters bound, where the machine stands after the entry code. */
  lemma EnterRuns(p: Programs.KoopaProgram, f: nat, ps: seq<nat>, env: Env, top: int, args: seq<Word>, w: World,
                  m: Machine)
    returns (t: Machine)
    requires Programs.Find(p.funcs, f).Some? && FuncOk(f, Programs.Find(p.funcs, f).value, ps) && |args| == |ps|
    requires EntryOk(env, top, args, w, m) && EnvOk(env, top)
    requires m.pc == Riscv.Find(ProgramLines(p.funcs), FuncLabel(f))
    ensures var fn := Programs.Find(p.funcs, f).value;
            && MReaches(ProgramLines(p.funcs), env, m, t)
            && Before(ActOf(f, fn, env, top, m), ProgramLines(p.funcs), Slots(f, fn, ps), AfterParams(fn, |ps|),
                      Fresh(Slots(f, fn, ps)), map[],
                      At(fn.bbs[0], 2 * |ps|, map[], map[], Source.Store(BindParams(ps, args), w)), t)
  {
    hide FuncOk, FnOf, VarsOf, Slots, Runs, InstsLines, BindParams, MReaches, CodeAt, OnlyParams, BlockOk, StacksOk,
         Riscv.Find;
    var fn := Programs.Find(p.funcs, f).value;
    var a := ActOf(f, fn, env, top, m);
    EntryFound(p.funcs, f, ps);
    var t1 := PrologueRuns(a, env, m);
    var t2 := ParamsRun(a, ps, t1);
    ParamsMatch(a, f, fn, ps, args, w, m, t1, t2);
    t := EntryCode(p, f, fn, ps, env, a, m, t1, t2);
    FuncSafe(f, fn, ps);
    EntryTables(a, f, fn, ps);
    EntryCounts(f, fn, ps);
    PcMatches(a, Fresh(Slots(f, fn, ps)), map[], At(fn.bbs[0], 2 * |ps|, map[], map[],
                                                    Source.Store(BindParams(ps, args), w)), t2, t.pc);
  }

  /** The machine runs the entry code: labels, prologue, stores. */
  lemma EntryCode(p: Programs.KoopaProgram, f: nat, fn: Func, ps: seq<nat>, env: Env, a: Act, m: Machine, t1: Machine,
                  t2: Machine)
    returns (t: Machine)
    requires FuncOk(f, fn, ps) && CodeAt(ProgramLines(p.funcs), m.pc, EntryLines(f, fn, ps)) && a.fn == FnOf(f, fn)
             && a.env == env
    requires Runs(env, Prologue(a.fn), m, t1) && Runs(env, ParamLines(a.fn, ps), t1, t2) && !t2.trapped
    ensures MReaches(ProgramLines(p.funcs), env, m, t) && t == t2.(pc := t.pc)
    ensures CodeAt(ProgramLines(p.funcs), t.pc, InstsLines(a.fn, Fresh(Slots(f, fn, ps)), AfterParams(fn, |ps|)).0)
  {
    hide FuncOk, FnOf, VarsOf, Slots, Runs, InstsLines, ParamLines, Prologue, MReaches, CodeAt;
    FuncParams(f, fn, ps);
    var l1, l2 := Mark(FuncLabel(f)), Mark(BlockLabel(f, fn.bbs[0]));
    var xs, ys := Prologue(a.fn), ParamLines(a.fn, ps);
    var rest := InstsLines(a.fn, Fresh(Slots(f, fn, ps)), AfterParams(fn, |ps|)).0;
    RunsOne(env, l1, m);
    RunsOne(env, l2, t1);
    RunsThen(env, [l1], xs, m, m, t1);
    RunsThen(env, [l1] + xs, [l2], m, t1, t1);
    RunsThen(env, [l1] + xs + [l2], ys, m, t1, t2);
    CodeSplit(ProgramLines(p.funcs), m.pc, [l1] + xs + [l2] + ys, rest);
    RunsReaches(ProgramLines(p.funcs), env, [l1] + xs + [l2] + ys, m, t2);
    t := t2.(pc := m.pc + |[l1] + xs + [l2] + ys|);
  }

  lemma EntryTables(a: Act, f: nat, fn: Func, ps: seq<nat>)
    requires FuncOk(f, fn, ps) && a.fn == FnOf(f, fn) && a.params == fn.params
    requires Aligned(a.base) && EnvOk(a.env, a.top) && a.Above() <= a.top
    ensures TablesOk(a, Fresh(Slots(f, fn, ps)), map[])
  {
    hide FuncOk, FnOf, VarsOf, Slots, StacksOk, FrameSafe, Aligned;
    SlotsOk(a, f, fn, ps);
    FuncSafe(f, fn, ps);
  }

  lemma FuncSafe(f: nat, fn: Func, ps: seq<nat>)
    requires FuncOk(f, fn, ps)
    ensures FrameSafe(FnOf(f, fn)) && |ps| == fn.params
  {
  }

  /** The counts cover the rest of the entry block. */
  lemma EntryCounts(f: nat, fn: Func, ps: seq<nat>)
    requires FuncOk(f, fn, ps)
    ensures fn.bbs != [] && 2 * |ps| <= |BlockAt(fn.blocks, fn.bbs[0])|
    ensures CountVals(AfterParams(fn, |ps|)) <= FnOf(f, fn).valCount
            && CountArgs(AfterParams(fn, |ps|)) <= FnOf(f, fn).argCount
    ensures BlockOk(FnOf(f, fn), Fresh(Slots(f, fn, ps)), map[], AfterParams(fn, |ps|))
  {
    FuncParams(f, fn, ps);
    MaxOverBounds(CountVals, fn.blocks, fn.bbs, fn.bbs[0]);
    MaxOverBounds(CountArgs, fn.blocks, fn.bbs, fn.bbs[0]);
    CountsSuffix(BlockAt(fn.blocks, fn.bbs[0]), 2 * |ps|);
  }

  lemma {:induction false} CountsSuffix(insts: seq<Inst>, n: nat)
    requires n <= |insts|
    ensures CountVals(insts[n..]) <= CountVals(insts) && CountArgs(insts[n..]) <= CountArgs(insts)
  {
    if n > 0 {
      CountsSuffix(insts, n - 1);
      CountsHead(insts[n - 1..]);
      assert insts[n - 1..][1..] == insts[n..];
    } else {
      assert insts[0..] == insts;
    }
  }
}
